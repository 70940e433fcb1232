/** What holds of the task records in every reachable state of a run. */
module RunInvariant {
  import opened Options
  import opened Templates
  import opened TaskFiles
  import opened TaskRuns

  /** Attempts are numbered from 1, only the running one has no outcome, and each logs under its number. */
  ghost predicate AttemptOk(a: Attempt, number: nat, running: bool, name: string) {
    && a.number == number
    && (a.outcome.None? <==> running)
    && (a.stdoutLog.Some? ==> a.stdoutLog == Some(LogName(Slug(name), number)))
  }

  /** The record's own fields agree: attempts are counted and bounded; a process is held iff running. */
  ghost predicate Bookkeeping(t: TaskRun) {
    && t.attemptsStarted <= Allowed(t.maxAttempts)
    && |t.attempts| == t.attemptsStarted
    && (forall k :: 0 <= k < |t.attempts| ==>
          AttemptOk(t.attempts[k], k + 1, t.state.Running? && k == |t.attempts| - 1, t.def.name))
    && (t.child.Some? <==> t.state.Running?)
    && (t.startTime.Some? <==> t.state.Running?)
    && t.pid == t.child
    && (Queued(t.state) ==> t.attemptsStarted < Allowed(t.maxAttempts))
    && (t.state.Pending? ==> t.attemptsStarted == 0 && t.nextRetryAt.None?)
    && (t.state.RetryQueued? ==>
          t.attemptsStarted > 0 && t.nextRetryAt.Some? && t.state.nextAttempt == t.attemptsStarted + 1)
    && (t.state.Running? || t.state.Completed? ==>
          && t.attemptsStarted > 0 && t.stdoutLog == Some(LogName(Slug(t.def.name), t.attemptsStarted))
          && t.attempts[|t.attempts| - 1].stdoutLog == t.stdoutLog)
    && (t.state.Completed? ==> t.attempts[|t.attempts| - 1].outcome == Some(Finished))
    && (t.state.Failed? && !t.state.cause.TemplateFailed? ==> t.attemptsStarted == Allowed(t.maxAttempts))
  }

  /** The task can be launched at all: it is not delegated, and its prompt expands. */
  predicate Local(def: TaskDef) {
    def.peer.None? && AllDotted(def.prompt)
  }

  /** The record's state agrees with the states of its dependencies and with delegation. */
  ghost predicate Placed(t: TaskRun, done: set<string>, doomed: set<string>) {
    && (t.state.Running? || t.state.RetryQueued? || t.state.Completed? || t.state.Failed? ==> DepsIn(t, done))
    && (t.state.Skipped? && t.state.why.DependencyFailed? ==>
          t.state.why.deps != [] && forall d :: d in t.state.why.deps ==> d in t.def.dependsOn && d in doomed)
    && (t.attemptsStarted > 0 ==> DepsIn(t, done) && Local(t.def))
    && (Panicked(t) ==> FirstDotted(t.def.prompt))
    && (t.state.Skipped? && t.state.why.RemotePeer? ==> t.def.peer == Some(t.state.why.peer) && DepsIn(t, done))
    && (t.def.peer.Some? ==> t.state.Pending? || t.state.Skipped? || t.state.Aborted?)
  }

  ghost predicate Inv(file: TaskFile, ts: seq<TaskRun>) {
    && |ts| == |file.tasks|
    && forall i :: 0 <= i < |ts| ==> RecordOk(file, ts, i)
  }

  ghost predicate RecordOk(file: TaskFile, ts: seq<TaskRun>, i: nat)
    requires i < |ts| == |file.tasks|
  {
    && ts[i].def == file.tasks[i]
    && ts[i].maxAttempts == ResolvedMaxAttempts(file.retries, file.tasks[i].retries)
    && Bookkeeping(ts[i])
    && Placed(ts[i], CompletedNames(ts), DoomedNames(ts))
  }

  /** How one record may change: terminal records never do. */
  ghost predicate Evolves(t: TaskRun, u: TaskRun) {
    && u.def == t.def && u.maxAttempts == t.maxAttempts
    && t.attemptsStarted <= u.attemptsStarted
    && (Terminal(t.state) ==> u == t)
  }

  // ---------------------------------------------------------------- names by state

  lemma CompletedIsNamed(ts: seq<TaskRun>, i: nat)
    requires i < |ts| && ts[i].state.Completed?
    ensures ts[i].def.name in CompletedNames(ts)
  {
    assert ts[i] in ts;
  }

  lemma DoomedIsNamed(ts: seq<TaskRun>, i: nat)
    requires i < |ts| && Doomed(ts[i].state)
    ensures ts[i].def.name in DoomedNames(ts)
  {
    assert ts[i] in ts;
  }

  lemma WhoCompleted(ts: seq<TaskRun>, n: string) returns (i: nat)
    requires n in CompletedNames(ts)
    ensures i < |ts| && ts[i].state.Completed? && ts[i].def.name == n
  {
    var t :| t in ts && t.state.Completed? && t.def.name == n;
    i :| 0 <= i < |ts| && ts[i] == t;
  }

  lemma WhoIsDoomed(ts: seq<TaskRun>, n: string) returns (i: nat)
    requires n in DoomedNames(ts)
    ensures i < |ts| && Doomed(ts[i].state) && ts[i].def.name == n
  {
    var t :| t in ts && Doomed(t.state) && t.def.name == n;
    i :| 0 <= i < |ts| && ts[i] == t;
  }

  /** With distinct names, no name is both completed and doomed. */
  lemma CompletedNotDoomed(file: TaskFile, ts: seq<TaskRun>, n: string)
    requires Inv(file, ts) && DistinctNames(file.tasks)
    ensures !(n in CompletedNames(ts) && n in DoomedNames(ts))
  {
    if n in CompletedNames(ts) && n in DoomedNames(ts) {
      var i := WhoCompleted(ts, n);
      var j := WhoIsDoomed(ts, n);
      SameRecord(file, ts, i, j);
    }
  }

  lemma SameRecord(file: TaskFile, ts: seq<TaskRun>, i: nat, j: nat)
    requires Inv(file, ts) && DistinctNames(file.tasks)
    requires i < |ts| && j < |ts| && ts[i].def.name == ts[j].def.name
    ensures i == j
  {
    assert RecordOk(file, ts, i) && RecordOk(file, ts, j);
  }

  // ---------------------------------------------------------------- one record, one step

  lemma MarkKeeps(t: TaskRun, done: set<string>, doomed: set<string>)
    requires Bookkeeping(t) && Placed(t, done, doomed)
    ensures var u := MarkOne(t, doomed); Bookkeeping(u) && Placed(u, done, doomed) && Evolves(t, u)
  {}

  lemma AbortKeeps(t: TaskRun, now: nat, done: set<string>, doomed: set<string>)
    requires Bookkeeping(t) && Placed(t, done, doomed)
    ensures var u := AbortOne(t, now); Bookkeeping(u) && Placed(u, done, doomed) && Evolves(t, u)
  {}

  lemma StartKeeps(t: TaskRun, i: nat, answer: LaunchAnswer, now: nat)
    requires Bookkeeping(t) && Queued(t.state)
    ensures Bookkeeping(StartAttempt(t, i, answer, now))
  {}

  /** A prompt is launched as its expansion; skipping the expander when no `{{` occurs changes nothing. */
  lemma {:induction false} LaunchPromptIsExpansion(
    prompt: string, outputs: map<string, LogPath>, read: LogPath -> Option<string>)
    ensures LaunchPrompt(prompt, outputs, read) == Expand(Parse(prompt), outputs, read)
  {}

  lemma LaunchedIsLocal(prompt: string, outputs: map<string, LogPath>, read: LogPath -> Option<string>)
    ensures LaunchPrompt(prompt, outputs, read).Ok? ==> AllDotted(prompt)
  {
    LaunchPromptIsExpansion(prompt, outputs, read);
    if !AllDotted(prompt) {
      UndottedNeverExpands(prompt, outputs, read);
    }
  }

  lemma LaunchPanicNeedsDot(prompt: string, outputs: map<string, LogPath>, read: LogPath -> Option<string>)
    ensures var r := LaunchPrompt(prompt, outputs, read); r.Err? && r.error.CapturePanicked? ==> FirstDotted(prompt)
  {
    LaunchPromptIsExpansion(prompt, outputs, read);
    var r := Expand(Parse(prompt), outputs, read);
    if r.Err? && r.error.CapturePanicked? {
      PanicNeedsDot(prompt, outputs, read);
    }
  }

  ghost predicate StepKeeps(t: TaskRun, u: TaskRun, done: set<string>, doomed: set<string>) {
    Bookkeeping(u) && Placed(u, done, doomed) && Evolves(t, u)
  }

  lemma DelegationKeeps(t: TaskRun, done: set<string>, doomed: set<string>)
    requires Bookkeeping(t) && Placed(t, done, doomed) && Queued(t.state) && DepsIn(t, done) && t.def.peer.Some?
    ensures StepKeeps(t, t.(state := Skipped(RemotePeer(t.def.peer.value))), done, doomed)
  {}

  lemma TemplateFailureKeeps(t: TaskRun, e: TemplateError, done: set<string>, doomed: set<string>)
    requires Bookkeeping(t) && Placed(t, done, doomed) && Queued(t.state) && DepsIn(t, done) && t.def.peer.None?
    requires e.CapturePanicked? ==> FirstDotted(t.def.prompt)
    ensures StepKeeps(t, t.(state := Failed(TemplateFailed(e))), done, doomed)
  {}

  lemma StartPlaced(t: TaskRun, i: nat, answer: LaunchAnswer, now: nat, done: set<string>, doomed: set<string>)
    requires Bookkeeping(t) && Placed(t, done, doomed) && Queued(t.state) && DepsIn(t, done) && Local(t.def)
    ensures var u := StartAttempt(t, i, answer, now); Placed(u, done, doomed) && Evolves(t, u)
  {}

  lemma LaunchKeeps(t: TaskRun, i: nat, snap: Snapshot, obs: Observation, doomed: set<string>)
    requires Bookkeeping(t) && Placed(t, snap.done, doomed) && Ready(t, i, snap, obs)
    ensures StepKeeps(t, LaunchOne(t, i, snap.outputs, obs), snap.done, doomed)
  {
    if t.def.peer.Some? {
      DelegationKeeps(t, snap.done, doomed);
    } else {
      var prompt := LaunchPrompt(t.def.prompt, snap.outputs, obs.read(i));
      if prompt.Err? {
        LaunchPanicNeedsDot(t.def.prompt, snap.outputs, obs.read(i));
        TemplateFailureKeeps(t, prompt.error, snap.done, doomed);
      } else {
        LaunchedIsLocal(t.def.prompt, snap.outputs, obs.read(i));
        var answer, now := obs.launch(i, prompt.value), obs.launchClock(i);
        StartKeeps(t, i, answer, now);
        StartPlaced(t, i, answer, now, snap.done, doomed);
      }
    }
  }

  /** The last attempt gets its outcome; the process is let go. */
  lemma ReapKeepsBooks(t: TaskRun, outcome: Outcome, now: nat, u: TaskRun)
    requires Bookkeeping(t) && t.state.Running?
    requires var r := Reaped(t, outcome, now);
      (u == r.(state := Completed) && outcome == Finished) || exists cause, when :: u == RetryOrFail(r, cause, when) && !cause.TemplateFailed?
    ensures Bookkeeping(u)
  {}

  lemma PollKeepsBooks(t: TaskRun, i: nat, obs: Observation)
    requires Bookkeeping(t)
    ensures Bookkeeping(PollOne(t, i, obs))
  {
    if t.state.Running? && !obs.wait(i).StillRunning? {
      var now := obs.pollClock(i);
      match obs.wait(i)
      case Exited(code) =>
        if code == Some(0) {
          ReapKeepsBooks(t, Finished, now, PollOne(t, i, obs));
        } else {
          ReapKeepsBooks(t, FailedWith(ExitStatus(code)), now, PollOne(t, i, obs));
        }
      case WaitFailed(e) => ReapKeepsBooks(t, FailedWith(WaitError(e)), now, PollOne(t, i, obs));
    }
  }

  lemma PollKeepsPlace(t: TaskRun, i: nat, obs: Observation, done: set<string>, doomed: set<string>)
    requires Placed(t, done, doomed) && (t.state.Running? ==> t.attemptsStarted > 0)
    ensures var u := PollOne(t, i, obs); Placed(u, done, doomed) && Evolves(t, u)
  {}

  lemma PollKeeps(t: TaskRun, i: nat, obs: Observation, done: set<string>, doomed: set<string>)
    requires Bookkeeping(t) && Placed(t, done, doomed)
    ensures var u := PollOne(t, i, obs); Bookkeeping(u) && Placed(u, done, doomed) && Evolves(t, u)
  {
    PollKeepsBooks(t, i, obs);
    PollKeepsPlace(t, i, obs, done, doomed);
  }

  // ---------------------------------------------------------------- all records, one pass

  ghost predicate AllEvolve(ts: seq<TaskRun>, us: seq<TaskRun>) {
    |us| == |ts| && forall i :: 0 <= i < |ts| ==> Evolves(ts[i], us[i])
  }

  lemma AllEvolveTransitive(ts: seq<TaskRun>, us: seq<TaskRun>, vs: seq<TaskRun>)
    requires AllEvolve(ts, us) && AllEvolve(us, vs)
    ensures AllEvolve(ts, vs)
  {
    forall i | 0 <= i < |ts| ensures Evolves(ts[i], vs[i]) {
      assert Evolves(ts[i], us[i]) && Evolves(us[i], vs[i]);
    }
  }

  /** Terminal states persist, so completed and doomed names only accumulate. */
  lemma NamesGrow(ts: seq<TaskRun>, us: seq<TaskRun>)
    requires AllEvolve(ts, us)
    ensures CompletedNames(ts) <= CompletedNames(us) && DoomedNames(ts) <= DoomedNames(us)
  {
    forall n | n in CompletedNames(ts) ensures n in CompletedNames(us) {
      var i := WhoCompleted(ts, n);
      assert Evolves(ts[i], us[i]);
      CompletedIsNamed(us, i);
    }
    forall n | n in DoomedNames(ts) ensures n in DoomedNames(us) {
      var i := WhoIsDoomed(ts, n);
      assert Evolves(ts[i], us[i]);
      DoomedIsNamed(us, i);
    }
  }

  lemma PlacedGrows(t: TaskRun, done: set<string>, doomed: set<string>, done': set<string>, doomed': set<string>)
    requires Placed(t, done, doomed) && done <= done' && doomed <= doomed'
    ensures Placed(t, done', doomed')
  {}

  /** A pass that keeps each record in order, judged by the names before it, keeps the invariant. */
  lemma PassKeeps(file: TaskFile, ts: seq<TaskRun>, us: seq<TaskRun>)
    requires Inv(file, ts) && |us| == |ts|
    requires forall i :: 0 <= i < |ts| ==>
      Evolves(ts[i], us[i]) && Bookkeeping(us[i]) && Placed(us[i], CompletedNames(ts), DoomedNames(ts))
    ensures Inv(file, us) && AllEvolve(ts, us)
  {
    NamesGrow(ts, us);
    forall i | 0 <= i < |us| ensures RecordOk(file, us, i) {
      assert RecordOk(file, ts, i);
      PlacedGrows(us[i], CompletedNames(ts), DoomedNames(ts), CompletedNames(us), DoomedNames(us));
    }
  }

  lemma MarkPassKeeps(file: TaskFile, ts: seq<TaskRun>)
    requires Inv(file, ts)
    ensures Inv(file, Marked(ts)) && AllEvolve(ts, Marked(ts))
  {
    forall i | 0 <= i < |ts| ensures Evolves(ts[i], Marked(ts)[i]) && Bookkeeping(Marked(ts)[i])
      && Placed(Marked(ts)[i], CompletedNames(ts), DoomedNames(ts))
    {
      assert RecordOk(file, ts, i);
      MarkKeeps(ts[i], CompletedNames(ts), DoomedNames(ts));
    }
    PassKeeps(file, ts, Marked(ts));
  }

  lemma AbortPassKeeps(file: TaskFile, ts: seq<TaskRun>, now: nat)
    requires Inv(file, ts)
    ensures Inv(file, AbortedRuns(ts, now)) && AllEvolve(ts, AbortedRuns(ts, now))
  {
    var us := AbortedRuns(ts, now);
    forall i | 0 <= i < |ts| ensures Evolves(ts[i], us[i]) && Bookkeeping(us[i])
      && Placed(us[i], CompletedNames(ts), DoomedNames(ts))
    {
      assert RecordOk(file, ts, i);
      AbortKeeps(ts[i], now, CompletedNames(ts), DoomedNames(ts));
    }
    PassKeeps(file, ts, us);
  }

  /**
   What the launch loop does to each record: nothing, or the last part of the loop body, and
   that only from its starting index on, to a ready task, before the cancel flag is seen.
   */
  lemma {:induction false} LaunchPointwise(
    ts: seq<TaskRun>, i: nat, running: nat, snap: Snapshot, obs: Observation, j: nat)
    requires i <= |ts| && j < |ts|
    ensures var r := LaunchFrom(ts, i, running, snap, obs);
      r[j] == ts[j]
      || (i <= j && Ready(ts[j], j, snap, obs) && !CancelBefore(obs, j)
          && r[j] == LaunchOne(ts[j], j, snap.outputs, obs))
    decreases |ts| - i
  {
    if i < |ts| && !(Queued(ts[i].state) && CancelBefore(obs, i)) {
      if !Ready(ts[i], i, snap, obs) {
        LaunchPointwise(ts, i + 1, running, snap, obs, j);
      } else if snap.parallel || running == 0 {
        var t := LaunchOne(ts[i], i, snap.outputs, obs);
        if !Panicked(t) {
          LaunchPointwise(ts[i := t], i + 1, if t.state.Running? then running + 1 else running, snap, obs, j);
        }
      }
    }
  }

  lemma LaunchPassKeeps(file: TaskFile, ts: seq<TaskRun>, parallel: bool, obs: Observation)
    requires Inv(file, ts)
    ensures Inv(file, LaunchPass(ts, parallel, obs)) && AllEvolve(ts, LaunchPass(ts, parallel, obs))
  {
    var us := LaunchPass(ts, parallel, obs);
    var snap := SnapshotOf(ts, parallel);
    forall i | 0 <= i < |ts| ensures Evolves(ts[i], us[i]) && Bookkeeping(us[i])
      && Placed(us[i], CompletedNames(ts), DoomedNames(ts))
    {
      assert RecordOk(file, ts, i);
      LaunchPointwise(ts, 0, CountRunning(ts), snap, obs, i);
      if us[i] != ts[i] {
        LaunchKeeps(ts[i], i, snap, obs, DoomedNames(ts));
      }
    }
    PassKeeps(file, ts, us);
  }

  lemma PollPassKeeps(file: TaskFile, ts: seq<TaskRun>, obs: Observation)
    requires Inv(file, ts)
    ensures Inv(file, PollPass(ts, obs)) && AllEvolve(ts, PollPass(ts, obs))
    ensures Inv(file, Polled(ts, obs)) && AllEvolve(ts, Polled(ts, obs))
  {
    var us := PollPass(ts, obs);
    forall i | 0 <= i < |ts| ensures Evolves(ts[i], us[i]) && Bookkeeping(us[i])
      && Placed(us[i], CompletedNames(ts), DoomedNames(ts))
    {
      assert RecordOk(file, ts, i);
      PollKeeps(ts[i], i, obs, CompletedNames(ts), DoomedNames(ts));
    }
    PassKeeps(file, ts, us);
  }

  // ---------------------------------------------------------------- iterations and runs

  lemma SweepKeeps(file: TaskFile, ts: seq<TaskRun>, obs: Observation)
    requires Inv(file, ts)
    ensures Inv(file, Swept(ts, obs)) && AllEvolve(ts, Swept(ts, obs))
  {
    if CancelAtTop(obs) {
      AbortPassKeeps(file, ts, obs.abortClock);
      MarkPassKeeps(file, AbortedRuns(ts, obs.abortClock));
      AllEvolveTransitive(ts, AbortedRuns(ts, obs.abortClock), Swept(ts, obs));
    } else {
      MarkPassKeeps(file, ts);
    }
  }

  /** Every step of the loop keeps the invariant and leaves terminal records alone, cancelled or not. */
  lemma IterationKeeps(file: TaskFile, ts: seq<TaskRun>, parallel: bool, obs: Observation)
    requires Inv(file, ts)
    ensures Inv(file, Iteration(ts, parallel, obs)) && AllEvolve(ts, Iteration(ts, parallel, obs))
  {
    var swept := Swept(ts, obs);
    var launched := LaunchPass(swept, parallel, obs);
    SweepKeeps(file, ts, obs);
    LaunchPassKeeps(file, swept, parallel, obs);
    PollPassKeeps(file, launched, obs);
    AllEvolveTransitive(ts, swept, launched);
    AllEvolveTransitive(ts, launched, Iteration(ts, parallel, obs));
  }

  lemma InitialInv(file: TaskFile)
    ensures Inv(file, InitialRuns(file))
  {
    forall i | 0 <= i < |file.tasks| ensures RecordOk(file, InitialRuns(file), i) {}
  }

  lemma {:induction false} RunKeeps(file: TaskFile, ts: seq<TaskRun>, parallel: bool, script: seq<Observation>)
    requires Inv(file, ts)
    ensures Inv(file, Run(ts, parallel, script).tasks) && AllEvolve(ts, Run(ts, parallel, script).tasks)
    decreases |script|
  {
    if script != [] {
      var next := Iteration(ts, parallel, script[0]);
      IterationKeeps(file, ts, parallel, script[0]);
      if GoesOn(next, script[0]) {
        RunKeeps(file, next, parallel, script[1..]);
        AllEvolveTransitive(ts, next, Run(ts, parallel, script).tasks);
      }
    }
  }

  /** The invariant holds in every reachable state of every run. */
  lemma ReachableInv(file: TaskFile, parallel: bool, script: seq<Observation>)
    ensures Inv(file, Run(InitialRuns(file), parallel, script).tasks)
  {
    InitialInv(file);
    RunKeeps(file, InitialRuns(file), parallel, script);
  }

  /** The states that a run of the file passes through, in every environment. */
  ghost predicate Reachable(file: TaskFile, parallel: bool, ts: seq<TaskRun>) {
    exists script :: ts == Run(InitialRuns(file), parallel, script).tasks
  }

  lemma ReachableKeepsInv(file: TaskFile, parallel: bool, ts: seq<TaskRun>)
    requires Reachable(file, parallel, ts)
    ensures Inv(file, ts)
  {
    var script :| ts == Run(InitialRuns(file), parallel, script).tasks;
    ReachableInv(file, parallel, script);
  }

  /** In every reachable state, work that started has all of its dependencies completed. */
  lemma StartedMeansDependenciesCompleted(file: TaskFile, parallel: bool, script: seq<Observation>, i: nat, d: string)
    requires i < |file.tasks| && d in file.tasks[i].dependsOn
    ensures var ts := Run(InitialRuns(file), parallel, script).tasks;
      && |ts| == |file.tasks|
      && (ts[i].state.Running? || ts[i].state.RetryQueued? || ts[i].state.Completed? || ts[i].state.Failed? ==>
            exists j :: 0 <= j < |ts| && ts[j].def.name == d && ts[j].state.Completed?)
  {
    ReachableInv(file, parallel, script);
    var ts := Run(InitialRuns(file), parallel, script).tasks;
    assert RecordOk(file, ts, i);
    if d in CompletedNames(ts) {
      var j := WhoCompleted(ts, d);
    }
  }

  /** A queued retry is never skipped for a dependency: its dependencies have completed. */
  lemma RetryNeverSkipped(file: TaskFile, ts: seq<TaskRun>, i: nat)
    requires Inv(file, ts) && DistinctNames(file.tasks)
    requires i < |ts| && ts[i].state.RetryQueued?
    ensures Marked(ts)[i] == ts[i]
  {
    assert RecordOk(file, ts, i);
    var failed := FailedDeps(ts[i].def.dependsOn, DoomedNames(ts));
    if failed != [] {
      assert failed[0] in failed;
      CompletedNotDoomed(file, ts, failed[0]);
      assert false;
    }
  }

  // ---------------------------------------------------------------- sequential mode

  lemma {:induction false} CountUpdate(ts: seq<TaskRun>, i: nat, t: TaskRun)
    requires i < |ts|
    ensures CountRunning(ts[i := t]) + (if ts[i].state.Running? then 1 else 0)
         == CountRunning(ts) + (if t.state.Running? then 1 else 0)
    decreases |ts|
  {
    var n := |ts| - 1;
    var us := ts[i := t];
    if i < n {
      assert us[..n] == ts[..n][i := t];
      CountUpdate(ts[..n], i, t);
    } else {
      assert us[..n] == ts[..n];
    }
  }

  lemma {:induction false} CountShrinks(ts: seq<TaskRun>, us: seq<TaskRun>)
    requires |us| == |ts|
    requires forall i :: 0 <= i < |ts| && us[i].state.Running? ==> ts[i].state.Running?
    ensures CountRunning(us) <= CountRunning(ts)
    decreases |ts|
  {
    if ts != [] {
      var n := |ts| - 1;
      forall i | 0 <= i < n && us[..n][i].state.Running? ensures ts[..n][i].state.Running? {
        assert us[i].state.Running?;
      }
      CountShrinks(ts[..n], us[..n]);
    }
  }

  lemma {:induction false} CountTwo(ts: seq<TaskRun>, i: nat, j: nat)
    requires i < j < |ts| && ts[i].state.Running? && ts[j].state.Running?
    ensures CountRunning(ts) >= 2
    decreases |ts|
  {
    var n := |ts| - 1;
    if j < n {
      CountTwo(ts[..n], i, j);
    } else {
      CountOne(ts[..n], i);
    }
  }

  lemma {:induction false} CountOne(ts: seq<TaskRun>, i: nat)
    requires i < |ts| && ts[i].state.Running?
    ensures CountRunning(ts) >= 1
    decreases |ts|
  {
    if i < |ts| - 1 {
      CountOne(ts[..|ts| - 1], i);
    }
  }

  lemma {:induction false} LaunchFromOneAtATime(ts: seq<TaskRun>, i: nat, running: nat, snap: Snapshot, obs: Observation)
    requires i <= |ts| && running == CountRunning(ts) && running <= 1 && !snap.parallel
    ensures CountRunning(LaunchFrom(ts, i, running, snap, obs)) <= 1
    decreases |ts| - i
  {
    if i < |ts| && !(Queued(ts[i].state) && CancelBefore(obs, i)) {
      if !Ready(ts[i], i, snap, obs) {
        LaunchFromOneAtATime(ts, i + 1, running, snap, obs);
      } else if running == 0 {
        var t := LaunchOne(ts[i], i, snap.outputs, obs);
        CountUpdate(ts, i, t);
        if !Panicked(t) {
          LaunchFromOneAtATime(ts[i := t], i + 1, if t.state.Running? then running + 1 else running, snap, obs);
        }
      }
    }
  }

  lemma OneAtATimeSweep(ts: seq<TaskRun>, obs: Observation)
    requires CountRunning(ts) <= 1
    ensures CountRunning(Swept(ts, obs)) <= 1
  {
    var first := if CancelAtTop(obs) then AbortedRuns(ts, obs.abortClock) else ts;
    CountShrinks(ts, first);
    CountShrinks(first, Swept(ts, obs));
  }

  lemma OneAtATimeStep(ts: seq<TaskRun>, obs: Observation)
    requires CountRunning(ts) <= 1
    ensures CountRunning(Iteration(ts, false, obs)) <= 1
  {
    OneAtATimeSweep(ts, obs);
    var swept := Swept(ts, obs);
    LaunchFromOneAtATime(swept, 0, CountRunning(swept), SnapshotOf(swept, false), obs);
    CountShrinks(LaunchPass(swept, false, obs), Iteration(ts, false, obs));
  }

  lemma {:induction false} OneAtATimeRun(ts: seq<TaskRun>, script: seq<Observation>)
    requires CountRunning(ts) <= 1
    ensures CountRunning(Run(ts, false, script).tasks) <= 1
    decreases |script|
  {
    if script != [] {
      OneAtATimeStep(ts, script[0]);
      OneAtATimeRun(Iteration(ts, false, script[0]), script[1..]);
    }
  }

  lemma {:induction false} NothingRunsInitially(ts: seq<TaskRun>)
    requires forall i :: 0 <= i < |ts| ==> ts[i].state.Pending?
    ensures CountRunning(ts) == 0
    decreases |ts|
  {
    if ts != [] {
      NothingRunsInitially(ts[..|ts| - 1]);
    }
  }

  /** In sequential mode no reachable state has two running tasks. */
  lemma SequentialRunsOne(file: TaskFile, script: seq<Observation>, i: nat, j: nat)
    requires i < j < |Run(InitialRuns(file), false, script).tasks|
    ensures var ts := Run(InitialRuns(file), false, script).tasks; !(ts[i].state.Running? && ts[j].state.Running?)
  {
    NothingRunsInitially(InitialRuns(file));
    OneAtATimeRun(InitialRuns(file), script);
    var ts := Run(InitialRuns(file), false, script).tasks;
    if ts[i].state.Running? && ts[j].state.Running? {
      CountTwo(ts, i, j);
    }
  }
}
