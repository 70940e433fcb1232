/** How runs end: cancellation, the exact reach of failures, launches and the returned result. */
module RunOutcome {
  import opened Options
  import opened Text
  import opened Templates
  import opened TaskGraph
  import opened TaskFiles
  import opened TaskRuns
  import opened RunInvariant
  import opened RunProgress

  // ---------------------------------------------------------------- cancellation

  /** An iteration that finds the flag set at its top does nothing but abort what is unfinished. */
  lemma {:induction false} CancelledIterationOnlyAborts(ts: seq<TaskRun>, parallel: bool, obs: Observation)
    requires CancelAtTop(obs)
    ensures Iteration(ts, parallel, obs) == AbortedRuns(ts, obs.abortClock)
    ensures AllTerminal(Iteration(ts, parallel, obs))
  {
    var us := AbortedRuns(ts, obs.abortClock);
    assert forall i :: 0 <= i < |us| ==> Terminal(us[i].state);
    assert Marked(us) == us;
    var snap := SnapshotOf(us, parallel);
    var launched := LaunchPass(us, parallel, obs);
    forall i | 0 <= i < |us| ensures launched[i] == us[i] {
      LaunchPointwise(us, 0, CountRunning(us), snap, obs, i);
    }
    assert launched == us;
    assert PollPass(us, obs) == us;
  }

  /** Once a read of the flag finds it set, no task from there on is launched in that iteration. */
  lemma {:induction false} NoLaunchOnceSeen(ts: seq<TaskRun>, parallel: bool, obs: Observation, j: nat)
    requires j < |ts| && CancelBefore(obs, j)
    ensures LaunchPass(ts, parallel, obs)[j] == ts[j]
  {
    LaunchPointwise(ts, 0, CountRunning(ts), SnapshotOf(ts, parallel), obs, j);
  }

  /** So a run in which the flag is set at a top read is over after that iteration. */
  lemma {:induction false} CancelledRest(ts: seq<TaskRun>, parallel: bool, rest: seq<Observation>)
    requires rest != [] && CancelAtTop(rest[0])
    ensures var loop := Run(ts, parallel, rest);
      loop.tasks == AbortedRuns(ts, rest[0].abortClock) && !loop.Polling? && AllTerminal(loop.tasks)
  {
    CancelledIterationOnlyAborts(ts, parallel, rest[0]);
  }

  /** When some read of the flag finds it set, the loop is left by the end of the next iteration. */
  lemma {:induction false} CancelledRunEnds(ts: seq<TaskRun>, parallel: bool, script: seq<Observation>, k: nat)
    requires CancelSticks(script, |ts|) && k + 1 < |script| && !Uncancelled(script[k], |ts|)
    ensures !Run(ts, parallel, script).Polling?
    ensures Run(ts, parallel, script).Ended? ==> AllTerminal(Run(ts, parallel, script).tasks)
    decreases |script|
  {
    var next := Iteration(ts, parallel, script[0]);
    var rest := script[1..];
    if GoesOn(next, script[0]) {
      assert |next| == |ts|;
      if k == 0 {
        assert CancelAtTop(script[1]);
        CancelledRest(next, parallel, rest);
      } else {
        assert rest[k - 1] == script[k];
        forall a, b | 0 <= a < b < |rest| && !Uncancelled(rest[a], |ts|) ensures CancelAtTop(rest[b]) {
          assert rest[a] == script[a + 1] && rest[b] == script[b + 1];
        }
        CancelledRunEnds(next, parallel, rest, k - 1);
      }
    }
  }

  lemma {:induction false} OnlyLaunchesCount(t: TaskRun, i: nat, doomed: set<string>, obs: Observation)
    ensures MarkOne(t, doomed).attemptsStarted == t.attemptsStarted
    ensures AbortOne(t, obs.abortClock).attemptsStarted == t.attemptsStarted
    ensures PollOne(t, i, obs).attemptsStarted == t.attemptsStarted
  {}

  /** The attempts of a task that no launch pass of this iteration may touch stay as they are. */
  lemma {:induction false} HeldBack(ts: seq<TaskRun>, parallel: bool, obs: Observation, j: nat)
    requires j < |ts| && CancelBefore(obs, j)
    ensures Iteration(ts, parallel, obs)[j].attemptsStarted == ts[j].attemptsStarted
  {
    var first := if CancelAtTop(obs) then AbortedRuns(ts, obs.abortClock) else ts;
    var swept := Swept(ts, obs);
    OnlyLaunchesCount(ts[j], j, DoomedNames(first), obs);
    OnlyLaunchesCount(first[j], j, DoomedNames(first), obs);
    NoLaunchOnceSeen(swept, parallel, obs, j);
    OnlyLaunchesCount(swept[j], j, DoomedNames(first), obs);
  }

  lemma {:induction false} LaunchAddsOne(t: TaskRun, i: nat, outputs: map<string, LogPath>, obs: Observation)
    ensures t.attemptsStarted <= LaunchOne(t, i, outputs, obs).attemptsStarted <= t.attemptsStarted + 1
  {}

  /**
   Two launch loops, where the flag is set just before read `r` and just after it: they differ
   in the task behind that read only.
   */
  lemma {:induction false} OneReadApart(
    ts: seq<TaskRun>, i: nat, running: nat, snap: Snapshot, obs: Observation, r: nat, j: nat)
    requires i <= |ts| && j < |ts| && 0 < r && obs.cancelFrom == r + 1 && j != r - 1
    ensures LaunchFrom(ts, i, running, snap, obs)[j] == LaunchFrom(ts, i, running, snap, obs.(cancelFrom := r))[j]
    decreases |ts| - i
  {
    var before := obs.(cancelFrom := r);
    if i >= r - 1 {
      LaunchPointwise(ts, i, running, snap, obs, j);
      LaunchPointwise(ts, i, running, snap, before, j);
    } else if i < |ts| {
      if !Ready(ts[i], i, snap, obs) {
        OneReadApart(ts, i + 1, running, snap, obs, r, j);
      } else if snap.parallel || running == 0 {
        var t := LaunchOne(ts[i], i, snap.outputs, obs);
        assert t == LaunchOne(ts[i], i, snap.outputs, before);
        OneReadApart(ts[i := t], i + 1, if t.state.Running? then running + 1 else running, snap, obs, r, j);
      }
    }
  }

  /** The same of a whole iteration, in attempts started. */
  lemma {:induction false} OneIterationApart(ts: seq<TaskRun>, parallel: bool, obs: Observation, r: nat, j: nat)
    requires j < |ts| && obs.cancelFrom == r + 1
    ensures var before := Iteration(ts, parallel, obs.(cancelFrom := r))[j].attemptsStarted;
      before <= Iteration(ts, parallel, obs)[j].attemptsStarted <= if j == r - 1 then before + 1 else before
  {
    var before := obs.(cancelFrom := r);
    if j >= r {
      HeldBack(ts, parallel, obs, j);
      HeldBack(ts, parallel, before, j);
    } else {
      var swept := Marked(ts);
      var snap := SnapshotOf(swept, parallel);
      assert swept == Swept(ts, obs) == Swept(ts, before);
      OnlyLaunchesCount(LaunchPass(swept, parallel, obs)[j], j, {}, obs);
      OnlyLaunchesCount(LaunchPass(swept, parallel, before)[j], j, {}, before);
      if j == r - 1 {
        NoLaunchOnceSeen(swept, parallel, before, j);
        LaunchPointwise(swept, 0, CountRunning(swept), snap, obs, j);
        LaunchAddsOne(swept[j], j, snap.outputs, obs);
      } else {
        OneReadApart(swept, 0, CountRunning(swept), snap, obs, r, j);
      }
    }
  }

  /**
   At most one more launch. Let the flag be set at any instant of the first iteration, between
   read `r` and the next read, be it in the same iteration or, for `r == |ts|`, at the top of
   the next one. Then the run starts the attempts it would have started had the flag been set
   before read `r` already, and at most one more: that of task `r - 1`, whose read came before.
   */
  lemma {:induction false} AtMostOneLateLaunch(
    ts: seq<TaskRun>, parallel: bool, script: seq<Observation>, r: nat, j: nat)
    requires script != [] && script[0].cancelFrom == r + 1 && r <= |ts| && j < |ts|
    requires forall k :: 0 < k < |script| ==> CancelAtTop(script[k])
    ensures var seen := Iteration(ts, parallel, script[0].(cancelFrom := r))[j].attemptsStarted;
      && |Run(ts, parallel, script).tasks| == |ts|
      && seen <= Run(ts, parallel, script).tasks[j].attemptsStarted <= if j == r - 1 then seen + 1 else seen
  {
    OneIterationApart(ts, parallel, script[0], r, j);
    OneMoreIteration(ts, parallel, script);
    if |script| > 1 {
      OnlyLaunchesCount(Iteration(ts, parallel, script[0])[j], j, {}, script[1]);
    }
  }

  /** After the iteration in which the flag is set, a run only aborts. */
  lemma {:induction false} OneMoreIteration(ts: seq<TaskRun>, parallel: bool, script: seq<Observation>)
    requires script != [] && (|script| > 1 ==> CancelAtTop(script[1]))
    ensures var next, us := Iteration(ts, parallel, script[0]), Run(ts, parallel, script).tasks;
      us == next || (|script| > 1 && us == AbortedRuns(next, script[1].abortClock))
  {
    if |script| > 1 {
      CancelledRest(Iteration(ts, parallel, script[0]), parallel, script[1..]);
    }
  }

  /** A run that ended left nothing running, whether or not it was cancelled. */
  lemma {:induction false} EndedMeansTerminal(ts: seq<TaskRun>, parallel: bool, script: seq<Observation>)
    requires Run(ts, parallel, script).Ended?
    ensures AllTerminal(Run(ts, parallel, script).tasks)
    decreases |script|
  {
    var next := Iteration(ts, parallel, script[0]);
    if !AllTerminal(next) {
      EndedMeansTerminal(next, parallel, script[1..]);
    }
  }

  ghost predicate NoneAborted(ts: seq<TaskRun>) {
    forall i :: 0 <= i < |ts| ==> !ts[i].state.Aborted?
  }

  lemma {:induction false} LaunchNeverAborts(t: TaskRun, i: nat, outputs: map<string, LogPath>, obs: Observation)
    requires Queued(t.state)
    ensures !LaunchOne(t, i, outputs, obs).state.Aborted?
  {}

  lemma {:induction false} UncancelledLaunch(ts: seq<TaskRun>, parallel: bool, obs: Observation)
    requires NoneAborted(ts)
    ensures NoneAborted(LaunchPass(ts, parallel, obs))
  {
    var us := LaunchPass(ts, parallel, obs);
    var snap := SnapshotOf(ts, parallel);
    forall i | 0 <= i < |ts| ensures !us[i].state.Aborted? {
      LaunchPointwise(ts, 0, CountRunning(ts), snap, obs, i);
      if us[i] != ts[i] {
        LaunchNeverAborts(ts[i], i, snap.outputs, obs);
      }
    }
  }

  lemma {:induction false} UncancelledIteration(ts: seq<TaskRun>, parallel: bool, obs: Observation)
    requires NoneAborted(ts) && Uncancelled(obs, |ts|)
    ensures NoneAborted(Iteration(ts, parallel, obs))
  {
    UncancelledLaunch(Swept(ts, obs), parallel, obs);
  }

  /** Without a cancellation no task is ever aborted. */
  lemma {:induction false} UncancelledNeverAborts(ts: seq<TaskRun>, parallel: bool, script: seq<Observation>)
    requires NoneAborted(ts) && NeverCancelled(script, |ts|)
    ensures NoneAborted(Run(ts, parallel, script).tasks)
    decreases |script|
  {
    if script != [] {
      UncancelledIteration(ts, parallel, script[0]);
      var next := Iteration(ts, parallel, script[0]);
      if GoesOn(next, script[0]) {
        UncancelledNeverAborts(next, parallel, script[1..]);
      }
    }
  }

  // ---------------------------------------------------------------- the reach of failures

  /** Where skipping starts: a task that failed, or one delegated to a remote peer. */
  predicate SkipRoot(t: TaskRun) {
    t.state.Failed? || (t.state.Skipped? && t.state.why.RemotePeer?)
  }

  predicate SkippedForDependency(t: TaskRun) {
    t.state.Skipped? && t.state.why.DependencyFailed?
  }

  ghost predicate DependsOnRoot(file: TaskFile, ts: seq<TaskRun>, n: string) {
    exists j :: 0 <= j < |ts| && SkipRoot(ts[j]) && DependsTransitively(GraphOf(file.tasks), n, ts[j].def.name)
  }

  function UnexplainedNames(ts: seq<TaskRun>, explained: set<string>): set<string> {
    set t | t in ts && SkippedForDependency(t) && t.def.name !in explained :: t.def.name
  }

  ghost function ExplainedNames(file: TaskFile, ts: seq<TaskRun>): set<string> {
    set t | t in ts && DependsOnRoot(file, ts, t.def.name) :: t.def.name
  }

  /** In any reachable uncancelled state, a task skipped for a dependency depends on a root. */
  lemma {:induction false} SkippedDependsOnRoot(file: TaskFile, ts: seq<TaskRun>, i: nat)
    requires ValidFile(file) && Inv(file, ts) && NoneAborted(ts)
    requires i < |ts| && SkippedForDependency(ts[i])
    ensures DependsOnRoot(file, ts, ts[i].def.name)
  {
    if !DependsOnRoot(file, ts, ts[i].def.name) {
      var g := GraphOf(file.tasks);
      var s := UnexplainedNames(ts, ExplainedNames(file, ts));
      assert ts[i] in ts;
      assert ts[i].def.name in s;
      var n := MinimalExists(g, s);
      var t :| t in ts && SkippedForDependency(t) && t.def.name == n && n !in ExplainedNames(file, ts);
      var j :| 0 <= j < |ts| && ts[j] == t;
      UnexplainedStep(file, ts, j, s);
    }
  }

  /** A skipped task none of whose dependencies is unexplained is itself explained. */
  lemma {:induction false} UnexplainedStep(file: TaskFile, ts: seq<TaskRun>, j: nat, s: set<string>)
    requires ValidFile(file) && Inv(file, ts) && NoneAborted(ts)
    requires j < |ts| && SkippedForDependency(ts[j])
    requires s == UnexplainedNames(ts, ExplainedNames(file, ts))
    requires forall d :: d in Deps(GraphOf(file.tasks), ts[j].def.name) ==> d !in s
    ensures ts[j].def.name in ExplainedNames(file, ts)
  {
    var g := GraphOf(file.tasks);
    assert RecordOk(file, ts, j);
    GraphDeps(file.tasks, j);
    var d := ts[j].state.why.deps[0];
    assert d in ts[j].state.why.deps;
    OneStep(g, ts[j].def.name, d);
    var k := WhoIsDoomed(ts, d);
    if SkippedForDependency(ts[k]) {
      assert ts[k] in ts;
      assert d in ExplainedNames(file, ts);
      var t :| t in ts && DependsOnRoot(file, ts, t.def.name) && t.def.name == d;
      var r :| 0 <= r < |ts| && SkipRoot(ts[r]) && DependsTransitively(g, d, ts[r].def.name);
      StepThenDepends(g, ts[j].def.name, d, ts[r].def.name);
    } else {
      assert SkipRoot(ts[k]);
    }
    assert DependsOnRoot(file, ts, ts[j].def.name);
    assert ts[j] in ts;
  }

  /** Once everything is terminal, whatever lies on a dependency path to a doomed task was skipped. */
  lemma {:induction false} DependentsAreSkipped(file: TaskFile, ts: seq<TaskRun>, i: nat, j: nat, p: seq<string>)
    requires ValidFile(file) && Inv(file, ts) && NoneAborted(ts) && AllTerminal(ts)
    requires i < |ts| && j < |ts| && Doomed(ts[j].state)
    requires IsPath(GraphOf(file.tasks), p) && |p| > 1 && p[0] == ts[i].def.name && p[|p| - 1] == ts[j].def.name
    ensures SkippedForDependency(ts[i])
    decreases |p|
  {
    assert RecordOk(file, ts, i);
    GraphDeps(file.tasks, i);
    PathTail(GraphOf(file.tasks), p);
    var d := p[1];
    if |p| == 2 {
      DoomedIsNamed(ts, j);
    } else {
      var k := TaskNamed(file, ts, i, d);
      DependentsAreSkipped(file, ts, k, j, p[1..]);
      DoomedIsNamed(ts, k);
    }
    CompletedNotDoomed(file, ts, d);
    assert !DepsIn(ts[i], CompletedNames(ts));
  }

  /**
   The exact reach of failures. At the end of an uncancelled run of a valid file, a task was
   skipped for a dependency iff it transitively depends on a task that failed or was
   delegated; otherwise it was delegated itself iff it names a peer, and else ran to an end.
   */
  lemma {:induction false} SkippedExactlyDependents(file: TaskFile, parallel: bool, script: seq<Observation>, i: nat)
    requires ValidFile(file) && NeverCancelled(script, |file.tasks|)
    requires Run(InitialRuns(file), parallel, script).Ended? && i < |file.tasks|
    ensures var ts := Run(InitialRuns(file), parallel, script).tasks;
      && |ts| == |file.tasks|
      && (SkippedForDependency(ts[i]) <==> DependsOnRoot(file, ts, file.tasks[i].name))
      && (ts[i].state.Completed? || (ts[i].state.Failed? && file.tasks[i].peer.None?) <==>
            !DependsOnRoot(file, ts, file.tasks[i].name) && file.tasks[i].peer.None?)
  {
    var initial := InitialRuns(file);
    ReachableInv(file, parallel, script);
    UncancelledNeverAborts(initial, parallel, script);
    EndedMeansTerminal(initial, parallel, script);
    SkippedIff(file, Run(initial, parallel, script).tasks, i);
  }

  lemma {:induction false} SkippedIff(file: TaskFile, ts: seq<TaskRun>, i: nat)
    requires ValidFile(file) && Inv(file, ts) && NoneAborted(ts) && AllTerminal(ts) && i < |ts|
    ensures SkippedForDependency(ts[i]) <==> DependsOnRoot(file, ts, file.tasks[i].name)
    ensures ts[i].state.Completed? || (ts[i].state.Failed? && file.tasks[i].peer.None?) <==>
      !SkippedForDependency(ts[i]) && file.tasks[i].peer.None?
  {
    assert RecordOk(file, ts, i);
    if SkippedForDependency(ts[i]) {
      SkippedDependsOnRoot(file, ts, i);
    }
    if DependsOnRoot(file, ts, file.tasks[i].name) {
      RootSkips(file, ts, i);
    }
    assert Terminal(ts[i].state) && !ts[i].state.Aborted?;
  }

  lemma {:induction false} RootSkips(file: TaskFile, ts: seq<TaskRun>, i: nat)
    requires ValidFile(file) && Inv(file, ts) && NoneAborted(ts) && AllTerminal(ts) && i < |ts|
    requires DependsOnRoot(file, ts, ts[i].def.name)
    ensures SkippedForDependency(ts[i])
  {
    var g := GraphOf(file.tasks);
    var j :| 0 <= j < |ts| && SkipRoot(ts[j]) && DependsTransitively(g, ts[i].def.name, ts[j].def.name);
    var p :| IsPath(g, p) && |p| > 1 && p[0] == ts[i].def.name && p[|p| - 1] == ts[j].def.name;
    DependentsAreSkipped(file, ts, i, j, p);
  }

  // ---------------------------------------------------------------- launching with templates

  lemma {:induction false} OutputsAreLogs(ts: seq<TaskRun>, i: nat)
    requires i < |ts| && ts[i].state.Completed? && ts[i].stdoutLog.Some?
    requires forall j :: 0 <= j < |ts| && j != i ==> ts[j].def.name != ts[i].def.name
    ensures ts[i].def.name in CompletedOutputs(ts)
    ensures CompletedOutputs(ts)[ts[i].def.name] == ts[i].stdoutLog.value
    decreases |ts|
  {
    if i < |ts| - 1 {
      OutputsAreLogs(ts[..|ts| - 1], i);
    }
  }

  /** A completed dependency's entry in the output map is the log of its last attempt. */
  lemma {:induction false} CompletedHasOutput(file: TaskFile, ts: seq<TaskRun>, d: string) returns (k: nat)
    requires ValidFile(file) && Inv(file, ts) && d in CompletedNames(ts)
    ensures k < |ts| && ts[k].def.name == d && ts[k].state.Completed?
    ensures d in CompletedOutputs(ts) && CompletedOutputs(ts)[d] == LogName(Slug(d), ts[k].attemptsStarted)
  {
    k := WhoCompleted(ts, d);
    assert RecordOk(file, ts, k);
    forall j | 0 <= j < |ts| && j != k ensures ts[j].def.name != ts[k].def.name {
      assert RecordOk(file, ts, j);
    }
    OutputsAreLogs(ts, k);
  }

  /** And only completed tasks have one. */
  lemma {:induction false} OutputsAreCompleted(ts: seq<TaskRun>, d: string)
    requires d in CompletedOutputs(ts)
    ensures exists k :: 0 <= k < |ts| && ts[k].def.name == d && ts[k].state.Completed?
                        && ts[k].stdoutLog == Some(CompletedOutputs(ts)[d])
    decreases |ts|
  {
    var n := |ts| - 1;
    if d in CompletedOutputs(ts[..n]) {
      OutputsAreCompleted(ts[..n], d);
      var k :| 0 <= k < n && ts[..n][k].def.name == d && ts[..n][k].state.Completed?
               && ts[..n][k].stdoutLog == Some(CompletedOutputs(ts[..n])[d]);
      assert ts[k] == ts[..n][k];
    }
  }

  /**
   A ready task of a valid file whose placeholders all have a dot expands its prompt unless a
   log cannot be read or cut: validation has ruled out every other template error.
   */
  lemma {:induction false} OnlyReadsCanFail(file: TaskFile, ts: seq<TaskRun>, parallel: bool, obs: Observation, i: nat)
    requires ValidFile(file) && Inv(file, ts) && i < |ts| && AllDotted(ts[i].def.prompt)
    requires Ready(ts[i], i, SnapshotOf(ts, parallel), obs)
    ensures LaunchPrompt(ts[i].def.prompt, CompletedOutputs(ts), obs.read(i)).Err? ==>
      exists d :: d in ts[i].def.dependsOn && d in CompletedOutputs(ts) && Unusable(obs.read(i)(CompletedOutputs(ts)[d]))
  {
    var prompt, outputs := ts[i].def.prompt, CompletedOutputs(ts);
    var t := Parse(prompt);
    LaunchPromptIsExpansion(prompt, outputs, obs.read(i));
    if Expand(t, outputs, obs.read(i)).Err? {
      var k := ExpandErrIsFirst(t, outputs, obs.read(i));
      assert Holes(t)[k] in Holes(t);
      HoleResolvesUnlessUnusable(file, ts, parallel, obs, i, Holes(t)[k]);
    }
  }

  /** A log that cannot be read, or whose capture would be cut inside a character. */
  ghost predicate Unusable(log: Option<string>) {
    log.None? || CutsCharacter(log.value, MAX_CAPTURED_OUTPUT)
  }

  lemma {:induction false} HoleResolvesUnlessUnusable(
    file: TaskFile, ts: seq<TaskRun>, parallel: bool, obs: Observation, i: nat, raw: string)
    requires ValidFile(file) && Inv(file, ts) && i < |ts| && AllDotted(ts[i].def.prompt)
    requires Ready(ts[i], i, SnapshotOf(ts, parallel), obs)
    requires raw in Holes(Parse(ts[i].def.prompt))
    ensures var d := Reference(raw).value.0;
      && d in ts[i].def.dependsOn && d in CompletedOutputs(ts)
      && (Resolve(raw, CompletedOutputs(ts), obs.read(i)).Err? ==> Unusable(obs.read(i)(CompletedOutputs(ts)[d])))
  {
    HoleNamesDependency(file, ts, i, raw);
    var c := CompletedHasOutput(file, ts, Reference(raw).value.0);
    HolePanicsIff(raw, CompletedOutputs(ts), obs.read(i));
  }

  /** Validation: a placeholder with a dot asks for the stdout of a dependency. */
  lemma {:induction false} HoleNamesDependency(file: TaskFile, ts: seq<TaskRun>, i: nat, raw: string)
    requires ValidFile(file) && Inv(file, ts) && i < |ts| && Reference(raw).Some?
    requires raw in Holes(Parse(ts[i].def.prompt))
    ensures Reference(raw).value.1 == "stdout" && Reference(raw).value.0 in ts[i].def.dependsOn
  {
    assert RecordOk(file, ts, i);
    assert PromptOk(NamesOf(file.tasks), file.tasks[i]);
    var ref := Reference(raw).value;
    var refs := References(Parse(ts[i].def.prompt));
    ReferencesAreHoles(Parse(ts[i].def.prompt), ref);
    var k :| 0 <= k < |refs| && refs[k] == ref;
  }

  ghost predicate ReadsClean(read: LogPath -> Option<string>) {
    forall p :: !Unusable(read(p))
  }

  /** When every log can be read and cut, a ready task of a valid file expands iff its placeholders all have a dot. */
  lemma {:induction false} ExpandsIffDotted(file: TaskFile, ts: seq<TaskRun>, parallel: bool, obs: Observation, i: nat)
    requires ValidFile(file) && Inv(file, ts) && i < |ts| && ReadsClean(obs.read(i))
    requires Ready(ts[i], i, SnapshotOf(ts, parallel), obs)
    ensures LaunchPrompt(ts[i].def.prompt, CompletedOutputs(ts), obs.read(i)).Ok? <==> AllDotted(ts[i].def.prompt)
  {
    LaunchedIsLocal(ts[i].def.prompt, CompletedOutputs(ts), obs.read(i));
    if AllDotted(ts[i].def.prompt) {
      OnlyReadsCanFail(file, ts, parallel, obs, i);
    }
  }

  lemma {:induction false} OneTaskIsValid(def: TaskDef)
    requires def.dependsOn == [] && References(Parse(def.prompt)) == []
    ensures ValidFile(TaskFile([def], None))
  {
    var tasks := [def];
    assert tasks[..0] == [];
    assert GraphOf(tasks) == map[def.name := []];
    RankedIsAcyclic(GraphOf(tasks), map[def.name := 0]);
  }

  lemma {:induction false} OneHole(raw: string)
    requires forall k :: 0 <= k < |raw| ==> !PairAt(raw + "}}", '}', k)
    ensures Parse("{{" + raw + "}}") == Hole("", raw, Tail(""))
  {
    ParseUnique(Hole("", raw, Tail("")));
    PrintOneHole(raw);
  }

  lemma PrintOneHole(raw: string)
    ensures Print(Hole("", raw, Tail(""))) == "{{" + raw + "}}"
  {
    assert Print(Tail("")) == "";
  }

  /** Yet validation accepts undotted placeholders: a single task with the prompt `{{x}}` is valid. */
  lemma {:induction false} UndottedIsAccepted() returns (def: TaskDef)
    ensures def.prompt == "{{x}}" && ValidFile(TaskFile([def], None)) && !AllDotted(def.prompt)
  {
    def := TaskDef("t", "{{x}}", [], None, None);
    OneHole("x");
    assert "{{" + "x" + "}}" == "{{x}}";
    assert Reference("x").None?;
    assert Holes(Parse("{{x}}")) == ["x"];
    OneTaskIsValid(def);
  }

  /** And a task with an undotted placeholder never starts an attempt, in any run: launching fails it at once. */
  lemma {:induction false} UndottedNeverStarts(file: TaskFile, parallel: bool, script: seq<Observation>, i: nat)
    requires i < |file.tasks| && !AllDotted(file.tasks[i].prompt)
    ensures var ts := Run(InitialRuns(file), parallel, script).tasks;
      |ts| == |file.tasks| && ts[i].attemptsStarted == 0 && !ts[i].state.Completed?
  {
    ReachableInv(file, parallel, script);
    assert RecordOk(file, Run(InitialRuns(file), parallel, script).tasks, i);
  }

  /** Whatever the outputs, launching it fails it without counting an attempt. */
  lemma {:induction false} UndottedFailsAtLaunch(t: TaskRun, i: nat, snap: Snapshot, obs: Observation)
    requires t.def.peer.None? && !AllDotted(t.def.prompt)
    ensures LaunchOne(t, i, snap.outputs, obs).state.Failed?
    ensures LaunchOne(t, i, snap.outputs, obs).attemptsStarted == t.attemptsStarted
  {
    LaunchedIsLocal(t.def.prompt, snap.outputs, obs.read(i));
  }

  /**
   After its n-th attempt failed, a task with attempts left is held back for min(n, 3) seconds
   and is due from then on.
   */
  lemma {:induction false} RetriesBackOff(t: TaskRun, i: nat, failed: Observation, later: Observation)
    requires Bookkeeping(t) && t.state.Running? && t.attemptsStarted < t.maxAttempts
    requires failed.wait(i).WaitFailed? || (failed.wait(i).Exited? && failed.wait(i).code != Some(0))
    ensures var u := PollOne(t, i, failed);
      u.state.RetryQueued? && HeldUntil(u, failed.pollClock(i) + BackOff(t.attemptsStarted), later.launchClock(i))
  {}

  /** The same when the process could not be started. */
  lemma {:induction false} RefusedLaunchBacksOff(t: TaskRun, i: nat, error: string, now: nat, later: nat)
    requires Bookkeeping(t) && Queued(t.state) && t.attemptsStarted + 1 < t.maxAttempts
    ensures var u := StartAttempt(t, i, LaunchRefused(error), now);
      u.state.RetryQueued? && HeldUntil(u, now + BackOff(u.attemptsStarted), later)
  {}

  function BackOff(attempt: nat): nat {
    if attempt <= 3 then 1000 * attempt else 3000
  }

  predicate HeldUntil(t: TaskRun, instant: nat, now: nat) {
    Due(t, now) <==> now >= instant
  }

  // ---------------------------------------------------------------- the result

  /** The counts partition the tasks. */
  lemma {:induction false} CountsAddUp(ts: seq<TaskRun>)
    ensures var c := CountsOf(ts);
      c.completed + c.running + c.pending + c.retrying + c.failed + c.skipped + c.aborted == |ts|
    decreases |ts|
  {
    if ts != [] {
      CountsAddUp(ts[..|ts| - 1]);
    }
  }

  ghost predicate NoTaskFailed(ts: seq<TaskRun>) {
    forall i :: 0 <= i < |ts| ==> !ts[i].state.Failed?
  }

  ghost predicate NoTaskSkipped(ts: seq<TaskRun>) {
    forall i :: 0 <= i < |ts| ==> !ts[i].state.Skipped?
  }

  lemma LastOne(ts: seq<TaskRun>, n: nat)
    requires |ts| == n + 1
    ensures NoTaskFailed(ts) <==> NoTaskFailed(ts[..n]) && !ts[n].state.Failed?
    ensures NoTaskSkipped(ts) <==> NoTaskSkipped(ts[..n]) && !ts[n].state.Skipped?
    ensures NoneAborted(ts) <==> NoneAborted(ts[..n]) && !ts[n].state.Aborted?
  {
    assert forall i :: 0 <= i < n ==> ts[..n][i] == ts[i];
  }

  lemma {:induction false} ZeroCounts(ts: seq<TaskRun>)
    ensures var c := CountsOf(ts);
      (c.failed == 0 <==> NoTaskFailed(ts)) && (c.skipped == 0 <==> NoTaskSkipped(ts)) && (c.aborted == 0 <==> NoneAborted(ts))
    decreases |ts|
  {
    if ts != [] {
      var n := |ts| - 1;
      ZeroCounts(ts[..n]);
      LastOne(ts, n);
    }
  }

  /** A finished run reports success iff every task completed, and an interruption iff one was aborted. */
  lemma {:induction false} SuccessMeansAllCompleted(ts: seq<TaskRun>)
    requires AllTerminal(ts)
    ensures EndOf(CountsOf(ts)).AllCompleted? <==> forall i :: 0 <= i < |ts| ==> ts[i].state.Completed?
    ensures EndOf(CountsOf(ts)).Interrupted? <==> exists i :: 0 <= i < |ts| && ts[i].state.Aborted?
  {
    ZeroCounts(ts);
    forall i | 0 <= i < |ts| ensures ts[i].state.Completed? <==> !Doomed(ts[i].state) {
      assert Terminal(ts[i].state);
    }
  }

  /** An uncancelled run of a valid file succeeds iff no task failed and none was delegated. */
  lemma {:induction false} UncancelledSuccessIff(file: TaskFile, parallel: bool, script: seq<Observation>)
    requires ValidFile(file) && NeverCancelled(script, |file.tasks|)
    requires Run(InitialRuns(file), parallel, script).Ended?
    ensures var loop := Run(InitialRuns(file), parallel, script);
      ResultOf(loop, true).AllCompleted? <==> forall i :: 0 <= i < |loop.tasks| ==> !SkipRoot(loop.tasks[i])
  {
    var ts := Run(InitialRuns(file), parallel, script).tasks;
    ReachableInv(file, parallel, script);
    UncancelledNeverAborts(InitialRuns(file), parallel, script);
    EndedMeansTerminal(InitialRuns(file), parallel, script);
    SuccessMeansAllCompleted(ts);
    NoRootNoSkip(file, ts);
  }

  lemma {:induction false} NoRootNoSkip(file: TaskFile, ts: seq<TaskRun>)
    requires ValidFile(file) && Inv(file, ts) && NoneAborted(ts) && AllTerminal(ts)
    ensures (forall i :: 0 <= i < |ts| ==> ts[i].state.Completed?) <==> forall i :: 0 <= i < |ts| ==> !SkipRoot(ts[i])
  {
    if forall i :: 0 <= i < |ts| ==> !SkipRoot(ts[i]) {
      forall i | 0 <= i < |ts| ensures ts[i].state.Completed? {
        assert Terminal(ts[i].state) && !SkipRoot(ts[i]);
        if SkippedForDependency(ts[i]) {
          SkippedDependsOnRoot(file, ts, i);
        }
      }
    }
  }
}
