/** `run_tasks` and its helpers, which update the task records in place. */
module Scheduler {
  import opened Options
  import opened Text
  import opened Templates
  import opened TaskFiles
  import opened TaskRuns

  /** `mark_dependency_failures`: skip what waits for a failed, skipped or aborted dependency. */
  method MarkDependencyFailures(tasks: array<TaskRun>)
    modifies tasks
    ensures tasks[..] == Marked(old(tasks[..]))
  {
    ghost var ts := tasks[..];
    var doomed := DoomedNames(tasks[..]);
    var i := 0;
    while i < tasks.Length
      invariant 0 <= i <= tasks.Length
      invariant forall k :: 0 <= k < i ==> tasks[k] == MarkOne(ts[k], doomed)
      invariant forall k :: i <= k < tasks.Length ==> tasks[k] == ts[k]
    {
      if Queued(tasks[i].state) {
        var depsFailed := FailedDeps(tasks[i].def.dependsOn, doomed);
        if depsFailed != [] {
          tasks[i] := tasks[i].(state := Skipped(DependencyFailed(depsFailed)));
        }
      }
      i := i + 1;
    }
  }

  /** `abort_tasks`: kill what runs and cancel what waits. */
  method AbortTasks(tasks: array<TaskRun>, now: nat)
    modifies tasks
    ensures tasks[..] == AbortedRuns(old(tasks[..]), now)
  {
    ghost var ts := tasks[..];
    var i := 0;
    while i < tasks.Length
      invariant 0 <= i <= tasks.Length
      invariant forall k :: 0 <= k < i ==> tasks[k] == AbortOne(ts[k], now)
      invariant forall k :: i <= k < tasks.Length ==> tasks[k] == ts[k]
    {
      var t := tasks[i];
      if t.state.Running? {
        var elapsed := Elapsed(t, now);
        tasks[i] := t.(child := None, pid := None, startTime := None, state := Aborted(true),
          attempts := SetLatestOutcome(t.attempts, AbortedByUser, elapsed));
      } else if Queued(t.state) {
        tasks[i] := t.(state := Aborted(false), nextRetryAt := None);
      }
      i := i + 1;
    }
  }

  /** The number of running tasks, as the launch loop counts them first. */
  method CountRunningTasks(tasks: array<TaskRun>) returns (running: nat)
    ensures running == CountRunning(tasks[..])
  {
    running := 0;
    var i := 0;
    while i < tasks.Length
      invariant 0 <= i <= tasks.Length
      invariant running == CountRunning(tasks[..i])
    {
      assert tasks[..i + 1][..i] == tasks[..i];
      if tasks[i].state.Running? {
        running := running + 1;
      }
      i := i + 1;
    }
    assert tasks[..] == tasks[..i];
  }

  /** The launch loop of one iteration, and whether a panic ended it. */
  method LaunchReady(tasks: array<TaskRun>, parallel: bool, obs: Observation) returns (panicked: bool)
    requires !SomePanicked(tasks[..])
    modifies tasks
    ensures tasks[..] == LaunchPass(old(tasks[..]), parallel, obs)
    ensures panicked <==> SomePanicked(tasks[..])
  {
    ghost var ts := tasks[..];
    panicked := false;
    var snap := SnapshotOf(tasks[..], parallel);
    var runningCount := CountRunningTasks(tasks);
    var i := 0;
    while i < tasks.Length
      invariant 0 <= i <= tasks.Length
      invariant LaunchPass(ts, parallel, obs) == LaunchFrom(tasks[..], i, runningCount, snap, obs)
      invariant !panicked && !SomePanicked(tasks[..])
    {
      var t := tasks[i];
      if Queued(t.state) && CancelBefore(obs, i) {
        break;
      }
      if Ready(t, i, snap, obs) {
        if !parallel && runningCount > 0 {
          break;
        }
        ghost var before := tasks[..];
        var launched := Launch(t, i, snap.outputs, obs);
        tasks[i] := launched;
        assert tasks[..] == before[i := launched];
        panicked := Panicked(launched);
        if panicked {
          PanicShows(before, i, launched);
          break;
        }
        StillNonePanicked(before, i, launched);
        if launched.state.Running? {
          runningCount := runningCount + 1;
        }
      }
      i := i + 1;
    }
  }

  lemma PanicShows(ts: seq<TaskRun>, i: nat, t: TaskRun)
    requires i < |ts| && Panicked(t)
    ensures SomePanicked(ts[i := t])
  {
    assert Panicked(ts[i := t][i]);
  }

  lemma StillNonePanicked(ts: seq<TaskRun>, i: nat, t: TaskRun)
    requires i < |ts| && !SomePanicked(ts) && !Panicked(t)
    ensures !SomePanicked(ts[i := t])
  {}

  /** The last part of the launch loop: skip a delegated task, expand the prompt, start the process. */
  method Launch(t: TaskRun, i: nat, outputs: map<string, LogPath>, obs: Observation) returns (r: TaskRun)
    ensures r == LaunchOne(t, i, outputs, obs)
  {
    if t.def.peer.Some? {
      return t.(state := Skipped(RemotePeer(t.def.peer.value)));
    }
    var attempt := t.attemptsStarted + 1;
    var prompt := t.def.prompt;
    if FindPair(t.def.prompt, '{').Some? {
      var expanded, _ := ExpandPromptTemplates(t.def.prompt, outputs, obs.read(i));
      if expanded.Err? {
        return t.(state := Failed(TemplateFailed(expanded.error)));
      }
      prompt := expanded.value;
    }
    var answer := obs.launch(i, prompt);
    var now := obs.launchClock(i);
    match answer
    case Launched(pid) =>
      var log := LogName(Slug(t.def.name), attempt);
      r := t.(attemptsStarted := attempt, pid := Some(pid), startTime := Some(now), stdoutLog := Some(log),
        child := Some(pid), state := Running, nextRetryAt := None,
        attempts := t.attempts + [Attempt(attempt, Some(pid), Some(log), None, None)]);
    case LaunchRefused(error) =>
      var cause := LaunchError(error);
      r := t.(attemptsStarted := attempt,
        attempts := t.attempts + [Attempt(attempt, None, None, Some(FailedWith(cause)), None)]);
      r := RetryOrFail(r, cause, now);
  }

  /** The poll loop of one iteration. */
  method PollRunning(tasks: array<TaskRun>, obs: Observation)
    modifies tasks
    ensures tasks[..] == PollPass(old(tasks[..]), obs)
  {
    ghost var ts := tasks[..];
    var i := 0;
    while i < tasks.Length
      invariant 0 <= i <= tasks.Length
      invariant forall k :: 0 <= k < i ==> tasks[k] == PollOne(ts[k], k, obs)
      invariant forall k :: i <= k < tasks.Length ==> tasks[k] == ts[k]
    {
      var t := tasks[i];
      if t.state.Running? && t.child.Some? {
        var now := obs.pollClock(i);
        match obs.wait(i)
        case StillRunning =>
        case Exited(code) =>
          if code == Some(0) {
            tasks[i] := Reaped(t, Finished, now).(state := Completed);
          } else {
            tasks[i] := RetryOrFail(Reaped(t, FailedWith(ExitStatus(code)), now), ExitStatus(code), now);
          }
        case WaitFailed(e) =>
          tasks[i] := RetryOrFail(Reaped(t, FailedWith(WaitError(e)), now), WaitError(e), now);
      }
      i := i + 1;
    }
  }

  /** One iteration of the loop body, up to the report, and whether the process aborted in it. */
  method Iterate(tasks: array<TaskRun>, parallel: bool, obs: Observation) returns (panicked: bool)
    requires !SomePanicked(tasks[..])
    modifies tasks
    ensures tasks[..] == Iteration(old(tasks[..]), parallel, obs)
    ensures panicked <==> SomePanicked(tasks[..])
  {
    SweepNeverPanics(tasks[..], obs);
    if CancelAtTop(obs) {
      AbortTasks(tasks, obs.abortClock);
    }
    MarkDependencyFailures(tasks);
    panicked := LaunchReady(tasks, parallel, obs);
    if !panicked {
      PollNeverPanics(tasks[..], obs);
      PollRunning(tasks, obs);
    }
  }

  lemma SweepNeverPanics(ts: seq<TaskRun>, obs: Observation)
    requires !SomePanicked(ts)
    ensures !SomePanicked(Swept(ts, obs))
  {}

  lemma PollNeverPanics(ts: seq<TaskRun>, obs: Observation)
    requires !SomePanicked(ts)
    ensures !SomePanicked(PollPass(ts, obs))
  {}

  /** `compute_counts`. */
  method ComputeCounts(tasks: array<TaskRun>) returns (counts: RunCounts)
    ensures counts == CountsOf(tasks[..])
  {
    counts := RunCounts(0, 0, 0, 0, 0, 0, 0);
    var i := 0;
    while i < tasks.Length
      invariant 0 <= i <= tasks.Length
      invariant counts == CountsOf(tasks[..i])
    {
      assert tasks[..i + 1][..i] == tasks[..i];
      match tasks[i].state {
      case Pending => counts := counts.(pending := counts.pending + 1);
      case RetryQueued(_, _) => counts := counts.(retrying := counts.retrying + 1);
      case Running => counts := counts.(running := counts.running + 1);
      case Completed => counts := counts.(completed := counts.completed + 1);
      case Failed(_) => counts := counts.(failed := counts.failed + 1);
      case Skipped(_) => counts := counts.(skipped := counts.skipped + 1);
      case Aborted(_) => counts := counts.(aborted := counts.aborted + 1);
      }
      i := i + 1;
    }
    assert tasks[..] == tasks[..i];
  }

  /** How the loop was left. */
  datatype LoopExit = StillPolling | AbortedThere | NotReported | AllDone

  function ExitOf(loop: Loop): LoopExit {
    match loop
    case Polling(_) => StillPolling
    case Crashed(_) => AbortedThere
    case Unreported(_) => NotReported
    case Ended(_) => AllDone
  }

  /** The loop of `run_tasks`, for as many iterations as there are observations. */
  method PollLoop(tasks: array<TaskRun>, parallel: bool, script: seq<Observation>) returns (ghost loop: Loop, exit: LoopExit)
    requires !SomePanicked(tasks[..])
    modifies tasks
    ensures loop == Run(old(tasks[..]), parallel, script)
    ensures loop.tasks == tasks[..]
    ensures exit == ExitOf(loop)
  {
    ghost var initial := tasks[..];
    var k := 0;
    assert script[0..] == script;
    while k < |script|
      invariant 0 <= k <= |script|
      invariant Run(initial, parallel, script) == Run(tasks[..], parallel, script[k..])
      invariant !SomePanicked(tasks[..])
    {
      assert script[k..][1..] == script[k + 1..];
      var panicked := Iterate(tasks, parallel, script[k]);
      if panicked {
        return Crashed(tasks[..]), AbortedThere;
      }
      if !script[k].reportOk {
        return Unreported(tasks[..]), NotReported;
      }
      var allTerminal := AllTasksTerminal(tasks);
      if allTerminal {
        return Ended(tasks[..]), AllDone;
      }
      k := k + 1;
    }
    loop, exit := Polling(tasks[..]), StillPolling;
  }

  method AllTasksTerminal(tasks: array<TaskRun>) returns (all: bool)
    ensures all <==> AllTerminal(tasks[..])
  {
    var i := 0;
    while i < tasks.Length
      invariant 0 <= i <= tasks.Length
      invariant forall k :: 0 <= k < i ==> Terminal(tasks[k].state)
    {
      if !Terminal(tasks[i].state) {
        assert !Terminal(tasks[..][i].state);
        return false;
      }
      i := i + 1;
    }
    all := true;
  }

  /**
   `run_tasks`: the file is rejected, or the run's directory cannot be made, or the records go
   through the states of `Run` and the result is read off the final counts.
   */
  method RunTasks(file: TaskFile, parallel: bool, runDirOk: bool, script: seq<Observation>, summaryOk: bool)
    returns (end: RunEnd)
    ensures end.Rejected? <==> !ValidFile(file)
    ensures end.Rejected? ==> ErrorHolds(file, end.error)
    ensures end.NoRunDir? <==> ValidFile(file) && !runDirOk
    ensures ValidFile(file) && runDirOk ==> end == ResultOf(Run(InitialRuns(file), parallel, script), summaryOk)
  {
    var valid := ValidateTaskFile(file);
    if valid.Err? {
      return Rejected(valid.error);
    }
    var initial := InitialRuns(file);
    var tasks := new TaskRun[|initial|](i requires 0 <= i < |initial| => initial[i]);
    assert tasks[..] == initial;
    if !runDirOk {
      return NoRunDir;
    }
    ghost var loop;
    var exit;
    loop, exit := PollLoop(tasks, parallel, script);
    match exit
    case StillPolling => end := NotYet;
    case AbortedThere => end := ProcessAborted;
    case NotReported => end := ReportFailed;
    case AllDone =>
      end := ReportFailed;
      if summaryOk {
        var counts := ComputeCounts(tasks);
        end := EndOf(counts);
      }
  }
}
