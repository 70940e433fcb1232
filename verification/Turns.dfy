/**
 What one iteration does to each task's record, said of what the environment answered: which
 tasks the launch loop gets to, what their processes are started with, what a poll makes of
 an exit status, and what is recorded of it.
 */
module Turns {
  import opened Filters
  import opened Options
  import opened Templates
  import opened Placeholders
  import opened TaskFiles
  import opened TaskRuns
  import opened RunInvariant
  import opened RunOutcome

  // ---------------------------------------------------------------- which tasks the launch loop gets to

  /** Task `k` neither ends the loop by a panic nor, in sequential mode, by running. */
  ghost predicate LetsPass(ts: seq<TaskRun>, k: nat, snap: Snapshot, obs: Observation)
    requires k < |ts|
  {
    var u := LaunchOne(ts[k], k, snap.outputs, obs);
    !Panicked(u) && (snap.parallel || !u.state.Running?)
  }

  /** From task `n` on, with `running` tasks running, nothing keeps the loop from task `i`. */
  ghost predicate ReachedFrom(ts: seq<TaskRun>, n: nat, running: nat, snap: Snapshot, obs: Observation, i: nat)
    requires i < |ts|
  {
    && !CancelBefore(obs, i) && (snap.parallel || running == 0)
    && forall k :: n <= k < i && Ready(ts[k], k, snap, obs) ==> LetsPass(ts, k, snap, obs)
  }

  lemma {:induction false} LaunchFromExactly(
    ts: seq<TaskRun>, n: nat, running: nat, snap: Snapshot, obs: Observation, i: nat)
    requires n <= i < |ts|
    ensures LaunchFrom(ts, n, running, snap, obs)[i]
         == if Ready(ts[i], i, snap, obs) && ReachedFrom(ts, n, running, snap, obs, i)
            then LaunchOne(ts[i], i, snap.outputs, obs) else ts[i]
    decreases i - n
  {
    var ready := Ready(ts[n], n, snap, obs);
    if Queued(ts[n].state) && CancelBefore(obs, n) {
    } else if n == i {
      OnlyThisTurn(ts, i, running, snap, obs);
    } else if !ready {
      LaunchFromExactly(ts, n + 1, running, snap, obs, i);
    } else if snap.parallel || running == 0 {
      var t := LaunchOne(ts[n], n, snap.outputs, obs);
      if !Panicked(t) {
        var running' := if t.state.Running? then running + 1 else running;
        LaunchFromExactly(ts[n := t], n + 1, running', snap, obs, i);
        SameReach(ts, n, running, snap, obs, i);
      }
    }
  }

  /** The rest of the loop leaves the task it stands at alone. */
  lemma {:induction false} OnlyThisTurn(ts: seq<TaskRun>, i: nat, running: nat, snap: Snapshot, obs: Observation)
    requires i < |ts| && !(Queued(ts[i].state) && CancelBefore(obs, i))
    ensures LaunchFrom(ts, i, running, snap, obs)[i]
         == if Ready(ts[i], i, snap, obs) && (snap.parallel || running == 0)
            then LaunchOne(ts[i], i, snap.outputs, obs) else ts[i]
  {
    if !Ready(ts[i], i, snap, obs) {
      LaunchPointwise(ts, i + 1, running, snap, obs, i);
    } else if snap.parallel || running == 0 {
      var t := LaunchOne(ts[i], i, snap.outputs, obs);
      LaunchPointwise(ts[i := t], i + 1, if t.state.Running? then running + 1 else running, snap, obs, i);
    }
  }

  lemma {:induction false} SameReach(ts: seq<TaskRun>, n: nat, running: nat, snap: Snapshot, obs: Observation, i: nat)
    requires n < i < |ts| && Ready(ts[n], n, snap, obs) && (snap.parallel || running == 0)
    requires !Panicked(LaunchOne(ts[n], n, snap.outputs, obs))
    ensures var t := LaunchOne(ts[n], n, snap.outputs, obs);
      var running' := if t.state.Running? then running + 1 else running;
      ReachedFrom(ts[n := t], n + 1, running', snap, obs, i) <==> ReachedFrom(ts, n, running, snap, obs, i)
  {
    var t := LaunchOne(ts[n], n, snap.outputs, obs);
    forall k | n < k < i ensures LetsPass(ts[n := t], k, snap, obs) <==> LetsPass(ts, k, snap, obs) {}
    assert forall k :: n < k < i ==> ts[n := t][k] == ts[k];
  }

  /** Some task of this name has completed. */
  ghost predicate HasCompleted(ts: seq<TaskRun>, name: string) {
    exists j :: 0 <= j < |ts| && ts[j].def.name == name && ts[j].state.Completed?
  }

  /** The task waits for its first or its next attempt, its timer has run out, and all its dependencies have completed. */
  ghost predicate IsReady(ts: seq<TaskRun>, obs: Observation, i: nat)
    requires i < |ts|
  {
    && (ts[i].state.Pending? || ts[i].state.RetryQueued?)
    && (ts[i].nextRetryAt == None || ts[i].nextRetryAt.value <= obs.launchClock(i))
    && forall d :: d in ts[i].def.dependsOn ==> HasCompleted(ts, d)
  }

  lemma {:induction false} ReadyIff(ts: seq<TaskRun>, parallel: bool, obs: Observation, i: nat)
    requires i < |ts|
    ensures Ready(ts[i], i, SnapshotOf(ts, parallel), obs) <==> IsReady(ts, obs, i)
  {
    forall d ensures d in CompletedNames(ts) <==> HasCompleted(ts, d) {
      if d in CompletedNames(ts) {
        var j := WhoCompleted(ts, d);
      }
      if j :| 0 <= j < |ts| && ts[j].def.name == d && ts[j].state.Completed? {
        CompletedIsNamed(ts, j);
      }
    }
  }

  /**
   The launch loop of an iteration gets to the task and finds nothing to hold it back: it is ready,
   no read of the flag up to its own finds it set, no ready task before it panicked, and in
   sequential mode none is running, nor did any before it start.
   */
  ghost predicate Acts(ts: seq<TaskRun>, parallel: bool, obs: Observation, i: nat)
    requires i < |ts|
  {
    && IsReady(ts, obs, i) && obs.cancelFrom > i + 1
    && (parallel || forall k :: 0 <= k < |ts| ==> !ts[k].state.Running?)
    && forall k :: 0 <= k < i && IsReady(ts, obs, k) ==> LetsPass(ts, k, SnapshotOf(ts, parallel), obs)
  }

  lemma {:induction false} NoneRunningIff(ts: seq<TaskRun>)
    ensures CountRunning(ts) == 0 <==> forall k :: 0 <= k < |ts| ==> !ts[k].state.Running?
    decreases |ts|
  {
    if ts != [] {
      NoneRunningIff(ts[..|ts| - 1]);
      assert forall k :: 0 <= k < |ts| - 1 ==> ts[..|ts| - 1][k] == ts[k];
    }
  }

  /** The pass does the last part of its loop to exactly those tasks, in either mode, and nothing to the others. */
  lemma {:induction false} LaunchExactly(ts: seq<TaskRun>, parallel: bool, obs: Observation, i: nat)
    requires i < |ts|
    ensures LaunchPass(ts, parallel, obs)[i]
         == if Acts(ts, parallel, obs, i) then LaunchOne(ts[i], i, CompletedOutputs(ts), obs) else ts[i]
  {
    NoneRunningIff(ts);
    forall k | 0 <= k < |ts| ensures Ready(ts[k], k, SnapshotOf(ts, parallel), obs) <==> IsReady(ts, obs, k) {
      ReadyIff(ts, parallel, obs, k);
    }
    LaunchFromExactly(ts, 0, CountRunning(ts), SnapshotOf(ts, parallel), obs, i);
  }

  // ---------------------------------------------------------------- what a launch does

  /** The record says that its next attempt runs, as process `pid` since `now`. */
  ghost predicate Started(t: TaskRun, pid: nat, now: nat, u: TaskRun) {
    var n, log := t.attemptsStarted + 1, Some(LogName(Slug(t.def.name), t.attemptsStarted + 1));
    && u.state.Running? && u.pid == u.child == Some(pid) && u.startTime == Some(now) && u.stdoutLog == log
    && u.nextRetryAt.None?
    && u.attemptsStarted == n && u.attempts == t.attempts + [Attempt(n, Some(pid), log, None, None)]
  }

  /** The next attempt is recorded as failed, without a process, a log or a duration. */
  ghost predicate Refused(t: TaskRun, error: string, now: nat, u: TaskRun) {
    var n := t.attemptsStarted + 1;
    && u.attemptsStarted == n && u.stdoutLog == t.stdoutLog
    && u.attempts == t.attempts + [Attempt(n, None, None, Some(FailedWith(LaunchError(error))), None)]
    && FailsOrRetries(u, LaunchError(error), now)
  }

  /** With no attempt left the task has failed for this cause; otherwise another attempt is queued for it. */
  ghost predicate FailsOrRetries(u: TaskRun, cause: Cause, now: nat) {
    if u.attemptsStarted >= u.maxAttempts then u.state == Failed(cause)
    else u.state == RetryQueued(cause, u.attemptsStarted + 1) && u.nextRetryAt == Some(now + BackOff(u.attemptsStarted))
  }

  /** What becomes of a task that the launch loop acts on. */
  ghost predicate LaunchedAs(t: TaskRun, i: nat, outputs: map<string, LogPath>, obs: Observation, u: TaskRun) {
    && u.def == t.def && u.maxAttempts == t.maxAttempts
    && (t.def.peer.Some? ==> u == t.(state := Skipped(RemotePeer(t.def.peer.value))))
    && (t.def.peer.None? ==>
      && (forall e :: ExpansionFails(t.def.prompt, outputs, obs.read(i), e) ==> u == t.(state := Failed(TemplateFailed(e))))
      && (forall text :: Expands(t.def.prompt, outputs, obs.read(i), text) ==>
        match obs.launch(i, text)
        case Launched(pid) => Started(t, pid, obs.launchClock(i), u)
        case LaunchRefused(error) => Refused(t, error, obs.launchClock(i), u)))
  }

  lemma {:induction false} PromptIsExpansion(prompt: string, outputs: map<string, LogPath>, read: LogPath -> Option<string>)
    ensures forall text :: Expands(prompt, outputs, read, text) <==> LaunchPrompt(prompt, outputs, read) == Ok(text)
    ensures forall e :: ExpansionFails(prompt, outputs, read, e) <==> LaunchPrompt(prompt, outputs, read) == Err(e)
  {
    LaunchPromptIsExpansion(prompt, outputs, read);
    forall text ensures Expands(prompt, outputs, read, text) <==> LaunchPrompt(prompt, outputs, read) == Ok(text) {
      ExpandsIff(prompt, outputs, read, text);
    }
    forall e ensures ExpansionFails(prompt, outputs, read, e) <==> LaunchPrompt(prompt, outputs, read) == Err(e) {
      ExpansionFailsIff(prompt, outputs, read, e);
    }
  }

  lemma {:induction false} StartedAs(t: TaskRun, i: nat, answer: LaunchAnswer, now: nat)
    requires Queued(t.state)
    ensures var u := StartAttempt(t, i, answer, now);
      && u.def == t.def && u.maxAttempts == t.maxAttempts
      && match answer
         case Launched(pid) => Started(t, pid, now, u)
         case LaunchRefused(error) => Refused(t, error, now, u)
  {}

  /** A delegated task is skipped; any other is started with its expanded prompt, or fails as the expansion does. */
  lemma {:induction false} LaunchIs(t: TaskRun, i: nat, outputs: map<string, LogPath>, obs: Observation)
    requires Queued(t.state)
    ensures LaunchedAs(t, i, outputs, obs, LaunchOne(t, i, outputs, obs))
    ensures t.def.peer.None? ==>
      (exists text :: Expands(t.def.prompt, outputs, obs.read(i), text))
      || exists e :: ExpansionFails(t.def.prompt, outputs, obs.read(i), e)
  {
    var prompt := LaunchPrompt(t.def.prompt, outputs, obs.read(i));
    PromptIsExpansion(t.def.prompt, outputs, obs.read(i));
    if prompt.Ok? {
      assert Expands(t.def.prompt, outputs, obs.read(i), prompt.value);
      StartedAs(t, i, obs.launch(i, prompt.value), obs.launchClock(i));
    } else {
      assert ExpansionFails(t.def.prompt, outputs, obs.read(i), prompt.error);
    }
  }

  /** An attempt is added only with the text that the prompt expands to, and runs iff a process could be launched with it. */
  lemma {:induction false} AddedWith(
    t: TaskRun, i: nat, outputs: map<string, LogPath>, obs: Observation) returns (text: string)
    requires Queued(t.state) && |LaunchOne(t, i, outputs, obs).attempts| > |t.attempts|
    ensures Expands(t.def.prompt, outputs, obs.read(i), text)
    ensures LaunchOne(t, i, outputs, obs).state.Running? <==> obs.launch(i, text).Launched?
  {
    PromptIsExpansion(t.def.prompt, outputs, obs.read(i));
    text := LaunchPrompt(t.def.prompt, outputs, obs.read(i)).value;
    StartedAs(t, i, obs.launch(i, text), obs.launchClock(i));
  }

  // ---------------------------------------------------------------- what a poll does

  /** An attempt ended badly, for this cause. */
  predicate EndsBadly(answer: WaitAnswer, cause: Cause) {
    match answer
    case StillRunning => false
    case Exited(code) => code != Some(0) && cause == ExitStatus(code)
    case WaitFailed(e) => cause == WaitError(e)
  }

  /** Whole seconds from one instant to another; none if the clock stepped back. */
  ghost predicate WholeSeconds(from: nat, to: nat, seconds: nat) {
    if to < from then seconds == 0 else 1000 * seconds <= to - from < 1000 * (seconds + 1)
  }

  /** The running attempt has got this outcome and its duration, and the process is let go. */
  ghost predicate Closed(t: TaskRun, outcome: Outcome, now: nat, u: TaskRun)
    requires t.attempts != [] && t.startTime.Some?
  {
    var n := |t.attempts| - 1;
    && |u.attempts| == n + 1 && u.attempts[..n] == t.attempts[..n]
    && u.attempts[n].duration.Some? && WholeSeconds(t.startTime.value, now, u.attempts[n].duration.value)
    && u.attempts[n] == t.attempts[n].(outcome := Some(outcome), duration := u.attempts[n].duration)
    && u.child.None? && u.pid.None? && u.startTime.None?
    && u.def == t.def && u.maxAttempts == t.maxAttempts && u.attemptsStarted == t.attemptsStarted
    && u.stdoutLog == t.stdoutLog
  }

  /** What a poll makes of a running task. */
  ghost predicate PolledAs(t: TaskRun, answer: WaitAnswer, now: nat, u: TaskRun)
    requires t.attempts != [] && t.startTime.Some?
  {
    && (answer.StillRunning? ==> u == t)
    && (answer == Exited(Some(0)) ==> u.state.Completed? && Closed(t, Finished, now, u))
    && (forall cause :: EndsBadly(answer, cause) ==> Closed(t, FailedWith(cause), now, u) && FailsOrRetries(u, cause, now))
  }

  lemma {:induction false} ReapedAs(t: TaskRun, outcome: Outcome, now: nat)
    requires Bookkeeping(t) && t.state.Running?
    ensures Closed(t, outcome, now, Reaped(t, outcome, now))
  {}

  lemma {:induction false} PollIs(t: TaskRun, i: nat, obs: Observation)
    requires Bookkeeping(t) && t.state.Running?
    ensures PolledAs(t, obs.wait(i), obs.pollClock(i), PollOne(t, i, obs))
  {
    var now := obs.pollClock(i);
    ReapedAs(t, Finished, now);
    forall cause | EndsBadly(obs.wait(i), cause)
      ensures Closed(t, FailedWith(cause), now, PollOne(t, i, obs)) && FailsOrRetries(PollOne(t, i, obs), cause, now)
    {
      ReapedAs(t, FailedWith(cause), now);
    }
  }

  // ---------------------------------------------------------------- what an abort and a marking pass do

  /** Aborted while it ran, which closes its attempt, or before it did. */
  ghost predicate AbortedAs(t: TaskRun, now: nat, u: TaskRun)
    requires t.state.Running? ==> t.attempts != [] && t.startTime.Some?
  {
    && (t.state.Running? ==> u.state == Aborted(true) && Closed(t, AbortedByUser, now, u))
    && (Queued(t.state) ==> u == t.(state := Aborted(false), nextRetryAt := None))
    && (Terminal(t.state) ==> u == t)
  }

  lemma {:induction false} AbortIs(t: TaskRun, now: nat)
    requires Bookkeeping(t)
    ensures t.state.Running? ==> t.attempts != [] && t.startTime.Some?
    ensures AbortedAs(t, now, AbortOne(t, now))
  {}

  /** A cancelled iteration aborts every unfinished task, and closes the attempts that run. */
  lemma {:induction false} CancelledIs(file: TaskFile, ts: seq<TaskRun>, parallel: bool, obs: Observation, i: nat)
    requires Inv(file, ts) && i < |ts| && CancelAtTop(obs)
    ensures ts[i].state.Running? ==> ts[i].attempts != [] && ts[i].startTime.Some?
    ensures AbortedAs(ts[i], obs.abortClock, Iteration(ts, parallel, obs)[i])
  {
    CancelledIterationOnlyAborts(ts, parallel, obs);
    BooksOf(file, ts, i);
    AbortIs(ts[i], obs.abortClock);
  }

  /** Some task of this name has failed, was skipped or was aborted. */
  ghost predicate IsDoomed(ts: seq<TaskRun>, name: string) {
    exists j :: 0 <= j < |ts| && ts[j].def.name == name
                && (ts[j].state.Failed? || ts[j].state.Skipped? || ts[j].state.Aborted?)
  }

  ghost function DoomedIn(ts: seq<TaskRun>): string -> bool {
    name => IsDoomed(ts, name)
  }

  lemma {:induction false} DoomedIff(ts: seq<TaskRun>, name: string)
    ensures name in DoomedNames(ts) <==> IsDoomed(ts, name)
  {
    if name in DoomedNames(ts) {
      var i := WhoIsDoomed(ts, name);
    }
    if j :| 0 <= j < |ts| && ts[j].def.name == name && Doomed(ts[j].state) {
      DoomedIsNamed(ts, j);
    }
  }

  predicate Same(a: string, b: string) {
    a == b
  }

  /** The reason recorded for a skip lists the dependencies that are doomed, in order. */
  lemma {:induction false} FailedDepsListed(ts: seq<TaskRun>, names: seq<string>) returns (places: seq<nat>)
    ensures Picks(names, DoomedIn(ts), places) && ShowsAt(names, places, Same, FailedDeps(names, DoomedNames(ts)))
  {
    places := [];
    if names != [] {
      var later := FailedDepsListed(ts, names[1..]);
      PicksMore(names, DoomedIn(ts), later);
      ShowsMore(names, later, Same, FailedDeps(names[1..], DoomedNames(ts)));
      DoomedIff(ts, names[0]);
      places := (if DoomedIn(ts)(names[0]) then [0] else []) + Shifted(later);
    }
  }

  /** The task was skipped because these of its dependencies, all those at the places, are doomed. */
  ghost predicate SkippedFor(t: TaskRun, places: seq<nat>, u: TaskRun)
    requires forall k :: 0 <= k < |places| ==> places[k] < |t.def.dependsOn|
  {
    && SkippedForDependency(u) && u == t.(state := u.state)
    && u.state.why.deps == seq(|places|, k requires 0 <= k < |places| => t.def.dependsOn[places[k]])
  }

  lemma {:induction false} MarkIs(ts: seq<TaskRun>, i: nat) returns (places: seq<nat>)
    requires i < |ts| && Queued(ts[i].state)
    ensures Picks(ts[i].def.dependsOn, DoomedIn(ts), places)
    ensures if places == [] then Marked(ts)[i] == ts[i] else SkippedFor(ts[i], places, Marked(ts)[i])
  {
    places := FailedDepsListed(ts, ts[i].def.dependsOn);
    assert FailedDeps(ts[i].def.dependsOn, DoomedNames(ts))
        == seq(|places|, k requires 0 <= k < |places| => ts[i].def.dependsOn[places[k]]);
  }

  lemma {:induction false} LaunchNeverMarks(ts: seq<TaskRun>, parallel: bool, obs: Observation, i: nat)
    requires i < |ts|
    ensures var u := Polled(LaunchPass(ts, parallel, obs), obs)[i];
      if ts[i].state.Skipped? then u == ts[i] else !SkippedForDependency(u)
  {
    LaunchExactly(ts, parallel, obs, i);
    PollNeverSkips(LaunchPass(ts, parallel, obs), obs, i);
    if Acts(ts, parallel, obs, i) {
      ActedDelegates(ts[i], i, CompletedOutputs(ts), obs);
    }
  }

  /**
   An uncancelled iteration skips a queued task iff some dependency is doomed as it begins, and
   records them all, in the order in which the file lists them.
   */
  lemma {:induction false} SkipIs(ts: seq<TaskRun>, parallel: bool, obs: Observation, i: nat) returns (places: seq<nat>)
    requires i < |ts| && !CancelAtTop(obs) && Queued(ts[i].state)
    ensures Picks(ts[i].def.dependsOn, DoomedIn(ts), places)
    ensures var u := Iteration(ts, parallel, obs)[i];
      if places == [] then !SkippedForDependency(u) else SkippedFor(ts[i], places, u)
  {
    places := MarkIs(ts, i);
    LaunchNeverMarks(Marked(ts), parallel, obs, i);
  }

  lemma {:induction false} ActedDelegates(t: TaskRun, i: nat, outputs: map<string, LogPath>, obs: Observation)
    requires Queued(t.state)
    ensures var u := LaunchOne(t, i, outputs, obs);
      if t.def.peer.Some? then u.state == Skipped(RemotePeer(t.def.peer.value)) else !u.state.Skipped?
  {}

  lemma {:induction false} PollNeverSkips(ts: seq<TaskRun>, obs: Observation, i: nat)
    requires i < |ts|
    ensures ts[i].state.Skipped? || Polled(ts, obs)[i].state.Skipped? ==> Polled(ts, obs)[i] == ts[i]
  {}

  /** It is skipped as delegated iff the launch loop acts on it and it names a peer. */
  lemma {:induction false} DelegatedIff(ts: seq<TaskRun>, parallel: bool, obs: Observation, i: nat, peer: string)
    requires i < |ts| && Queued(ts[i].state)
    ensures Iteration(ts, parallel, obs)[i].state == Skipped(RemotePeer(peer)) <==>
      Acts(Swept(ts, obs), parallel, obs, i) && ts[i].def.peer == Some(peer)
  {
    var s := Swept(ts, obs);
    LaunchExactly(s, parallel, obs, i);
    PollNeverSkips(LaunchPass(s, parallel, obs), obs, i);
    SweepIs(ts, obs, i);
    if Acts(s, parallel, obs, i) {
      ActedDelegates(s[i], i, CompletedOutputs(s), obs);
    }
  }

  // ---------------------------------------------------------------- one iteration

  /** The records when the launch loop of the iteration is over. */
  function AfterLaunch(ts: seq<TaskRun>, parallel: bool, obs: Observation): seq<TaskRun> {
    LaunchPass(Swept(ts, obs), parallel, obs)
  }

  /** The task's process is polled in this iteration, which a panic before rules out. */
  ghost predicate Polls(ts: seq<TaskRun>, parallel: bool, obs: Observation, i: nat) {
    var us := AfterLaunch(ts, parallel, obs);
    !SomePanicked(us) && i < |us| && us[i].state.Running?
  }

  lemma {:induction false} BooksOf(file: TaskFile, ts: seq<TaskRun>, i: nat)
    requires Inv(file, ts) && i < |ts|
    ensures Bookkeeping(ts[i])
  {
    assert RecordOk(file, ts, i);
  }

  lemma {:induction false} LaunchedKeeps(file: TaskFile, ts: seq<TaskRun>, parallel: bool, obs: Observation)
    requires Inv(file, ts)
    ensures Inv(file, Swept(ts, obs)) && Inv(file, AfterLaunch(ts, parallel, obs))
  {
    SweepKeeps(file, ts, obs);
    LaunchPassKeeps(file, Swept(ts, obs), parallel, obs);
  }

  /** A polled record is what the poll's answer makes of it, and any other is as the launch loop left it. */
  lemma {:induction false} IterationPolls(file: TaskFile, ts: seq<TaskRun>, parallel: bool, obs: Observation, i: nat)
    requires Inv(file, ts) && i < |ts|
    ensures var t, u := AfterLaunch(ts, parallel, obs)[i], Iteration(ts, parallel, obs)[i];
      if Polls(ts, parallel, obs, i) then
        t.attempts != [] && t.startTime.Some? && PolledAs(t, obs.wait(i), obs.pollClock(i), u)
      else u == t
  {
    LaunchedKeeps(file, ts, parallel, obs);
    var t := AfterLaunch(ts, parallel, obs)[i];
    BooksOf(file, AfterLaunch(ts, parallel, obs), i);
    if Polls(ts, parallel, obs, i) {
      PollIs(t, i, obs);
    }
  }

  lemma {:induction false} SweepIs(ts: seq<TaskRun>, obs: Observation, i: nat)
    requires i < |ts|
    ensures var s := Swept(ts, obs)[i];
      s == ts[i] || (s.state.Aborted? && CancelAtTop(obs)) || SkippedForDependency(s)
    ensures Terminal(ts[i].state) ==> Swept(ts, obs)[i] == ts[i]
  {}

  /** Launching neither completes nor aborts anything, and changes queued records only. */
  lemma {:induction false} LaunchNeverCompletes(ts: seq<TaskRun>, parallel: bool, obs: Observation, i: nat)
    requires i < |ts|
    ensures var u := LaunchPass(ts, parallel, obs)[i];
      u == ts[i] || (Queued(ts[i].state) && !u.state.Completed? && !u.state.Aborted?)
  {
    LaunchExactly(ts, parallel, obs, i);
    if Acts(ts, parallel, obs, i) {
      LaunchNeverAborts(ts[i], i, CompletedOutputs(ts), obs);
      StartNeverCompletes(ts[i], i, CompletedOutputs(ts), obs);
    }
  }

  lemma {:induction false} StartNeverCompletes(t: TaskRun, i: nat, outputs: map<string, LogPath>, obs: Observation)
    requires Queued(t.state)
    ensures !LaunchOne(t, i, outputs, obs).state.Completed?
  {}

  /** A task is completed by an iteration iff its process is polled in it and has exited with status 0. */
  lemma {:induction false} CompletesIff(file: TaskFile, ts: seq<TaskRun>, parallel: bool, obs: Observation, i: nat)
    requires Inv(file, ts) && i < |ts|
    ensures Iteration(ts, parallel, obs)[i].state.Completed? <==>
      ts[i].state.Completed? || (Polls(ts, parallel, obs, i) && obs.wait(i) == Exited(Some(0)))
  {
    SweepIs(ts, obs, i);
    LaunchNeverCompletes(Swept(ts, obs), parallel, obs, i);
    IterationPolls(file, ts, parallel, obs, i);
    if Polls(ts, parallel, obs, i) {
      EndsSomehow(obs.wait(i));
    }
  }

  lemma EndsSomehow(answer: WaitAnswer)
    ensures answer.StillRunning? || answer == Exited(Some(0)) || exists cause :: EndsBadly(answer, cause)
  {
    match answer
    case StillRunning =>
    case Exited(code) => assert code != Some(0) ==> EndsBadly(answer, ExitStatus(code));
    case WaitFailed(e) => assert EndsBadly(answer, WaitError(e));
  }

  /** The launch loop acts on the task, which is not delegated, and its prompt expands to this text. */
  ghost predicate StartsWith(ts: seq<TaskRun>, parallel: bool, obs: Observation, i: nat, text: string)
    requires i < |ts|
  {
    && Acts(ts, parallel, obs, i) && ts[i].def.peer.None?
    && Expands(ts[i].def.prompt, CompletedOutputs(ts), obs.read(i), text)
  }

  /** The process that the answer reports. */
  function PidOf(answer: LaunchAnswer): Option<nat> {
    match answer
    case Launched(pid) => Some(pid)
    case LaunchRefused(_) => None
  }

  lemma {:induction false} PollKeepsAttempts(t: TaskRun, i: nat, obs: Observation)
    requires Bookkeeping(t)
    ensures var u := PollOne(t, i, obs);
      && |u.attempts| == |t.attempts|
      && forall k :: 0 <= k < |t.attempts| ==>
           && u.attempts[k].number == t.attempts[k].number && u.attempts[k].pid == t.attempts[k].pid
           && u.attempts[k].stdoutLog == t.attempts[k].stdoutLog
           && (t.attempts[k].outcome.Some? ==> u.attempts[k] == t.attempts[k])
  {}

  lemma {:induction false} LaunchStarts(ts: seq<TaskRun>, parallel: bool, obs: Observation, i: nat, text: string)
    requires i < |ts| && StartsWith(ts, parallel, obs, i, text)
    ensures var u, now := LaunchPass(ts, parallel, obs)[i], obs.launchClock(i);
      && u.maxAttempts == ts[i].maxAttempts
      && match obs.launch(i, text)
         case Launched(pid) => Started(ts[i], pid, now, u)
         case LaunchRefused(error) => Refused(ts[i], error, now, u)
  {
    LaunchExactly(ts, parallel, obs, i);
    LaunchIs(ts[i], i, CompletedOutputs(ts), obs);
  }

  /** One more attempt, which has this process, if any. */
  ghost predicate OneMore(t: TaskRun, pid: Option<nat>, u: TaskRun) {
    var n := |t.attempts|;
    u.attemptsStarted == |u.attempts| == n + 1 && u.attempts[..n] == t.attempts && u.attempts[n].pid == pid
  }

  lemma {:induction false} StartedOneMore(t: TaskRun, answer: LaunchAnswer, now: nat, u: TaskRun)
    requires Bookkeeping(t)
    requires match answer
      case Launched(pid) => Started(t, pid, now, u)
      case LaunchRefused(error) => Refused(t, error, now, u)
    ensures OneMore(t, PidOf(answer), u) && (u.state.Running? <==> answer.Launched?)
  {}

  lemma {:induction false} PollKeepsOneMore(t: TaskRun, pid: Option<nat>, u: TaskRun, i: nat, obs: Observation)
    requires Bookkeeping(t) && Bookkeeping(u) && !t.state.Running? && OneMore(t, pid, u)
    ensures OneMore(t, pid, PollOne(u, i, obs))
  {
    OnlyLastIsOpen(t);
    PollKeepsAttempts(u, i, obs);
    OnlyLaunchesCount(u, i, {}, obs);
    forall k | 0 <= k < |t.attempts| ensures PollOne(u, i, obs).attempts[k] == t.attempts[k] {
      assert u.attempts[..|t.attempts|][k] == u.attempts[k];
    }
  }

  lemma {:induction false} LaunchAddsAttempt(
    file: TaskFile, ts: seq<TaskRun>, parallel: bool, obs: Observation, i: nat, text: string)
    requires Inv(file, ts) && i < |ts| && StartsWith(ts, parallel, obs, i, text)
    ensures var u := LaunchPass(ts, parallel, obs)[i];
      && Queued(ts[i].state) && OneMore(ts[i], PidOf(obs.launch(i, text)), u)
      && (u.state.Running? <==> obs.launch(i, text).Launched?)
  {
    BooksOf(file, ts, i);
    LaunchStarts(ts, parallel, obs, i, text);
    StartedOneMore(ts[i], obs.launch(i, text), obs.launchClock(i), LaunchPass(ts, parallel, obs)[i]);
  }

  lemma {:induction false} QueuedUnswept(ts: seq<TaskRun>, obs: Observation, i: nat)
    requires i < |ts| && Queued(Swept(ts, obs)[i].state)
    ensures Swept(ts, obs)[i] == ts[i]
  {}

  lemma {:induction false} PolledOneMore(
    file: TaskFile, ts: seq<TaskRun>, us: seq<TaskRun>, obs: Observation, i: nat, pid: Option<nat>)
    requires Inv(file, ts) && Inv(file, us) && i < |ts| && Queued(ts[i].state) && OneMore(ts[i], pid, us[i])
    ensures OneMore(ts[i], pid, Polled(us, obs)[i])
  {
    BooksOf(file, ts, i);
    BooksOf(file, us, i);
    PollKeepsOneMore(ts[i], pid, us[i], i, obs);
  }

  /**
   A task's process is launched with its expanded prompt: when the launch loop acts on a task
   that is not delegated, and its placeholders are all replaced, then one attempt is added, which
   has a process iff launching one with exactly that text succeeded, and has that process.
   */
  lemma {:induction false} StartsWithExpansion(
    file: TaskFile, ts: seq<TaskRun>, parallel: bool, obs: Observation, i: nat, text: string)
    requires Inv(file, ts) && i < |ts| && StartsWith(Swept(ts, obs), parallel, obs, i, text)
    ensures OneMore(ts[i], PidOf(obs.launch(i, text)), Iteration(ts, parallel, obs)[i])
    ensures AfterLaunch(ts, parallel, obs)[i].state.Running? <==> obs.launch(i, text).Launched?
  {
    LaunchedKeeps(file, ts, parallel, obs);
    LaunchAddsAttempt(file, Swept(ts, obs), parallel, obs, i, text);
    QueuedUnswept(ts, obs, i);
    PolledOneMore(file, Swept(ts, obs), AfterLaunch(ts, parallel, obs), obs, i, PidOf(obs.launch(i, text)));
  }

  lemma {:induction false} OnlyLastIsOpen(t: TaskRun)
    requires Bookkeeping(t) && !t.state.Running?
    ensures forall k :: 0 <= k < |t.attempts| ==> t.attempts[k].outcome.Some?
  {
    forall k | 0 <= k < |t.attempts| ensures t.attempts[k].outcome.Some? {
      assert AttemptOk(t.attempts[k], k + 1, false, t.def.name);
    }
  }

  lemma {:induction false} UnexpandedStays(ts: seq<TaskRun>, parallel: bool, obs: Observation, i: nat)
    requires i < |ts| && forall text :: !StartsWith(ts, parallel, obs, i, text)
    ensures LaunchPass(ts, parallel, obs)[i].attempts == ts[i].attempts
  {
    LaunchExactly(ts, parallel, obs, i);
    if Acts(ts, parallel, obs, i) {
      LaunchIs(ts[i], i, CompletedOutputs(ts), obs);
      if text :| ts[i].def.peer.None? && Expands(ts[i].def.prompt, CompletedOutputs(ts), obs.read(i), text) {
        assert StartsWith(ts, parallel, obs, i, text);
      }
    }
  }

  /** And no attempt is added otherwise. */
  lemma {:induction false} OnlyExpandedStart(file: TaskFile, ts: seq<TaskRun>, parallel: bool, obs: Observation, i: nat)
    requires Inv(file, ts) && i < |ts| && forall text :: !StartsWith(Swept(ts, obs), parallel, obs, i, text)
    ensures |Iteration(ts, parallel, obs)[i].attempts| == |ts[i].attempts|
  {
    LaunchedKeeps(file, ts, parallel, obs);
    SweepKeepsAttempts(ts, obs, i);
    UnexpandedStays(Swept(ts, obs), parallel, obs, i);
    BooksOf(file, AfterLaunch(ts, parallel, obs), i);
    PollKeepsAttempts(AfterLaunch(ts, parallel, obs)[i], i, obs);
  }

  lemma {:induction false} SweepKeepsAttempts(ts: seq<TaskRun>, obs: Observation, i: nat)
    requires i < |ts|
    ensures |Swept(ts, obs)[i].attempts| == |ts[i].attempts|
  {}

  // ---------------------------------------------------------------- failed attempts

  /** An attempt of the task fails in this iteration: it could not be launched, or its process ended badly. */
  ghost predicate AttemptFails(ts: seq<TaskRun>, parallel: bool, obs: Observation, i: nat, cause: Cause)
    requires i < |ts|
  {
    || (Polls(ts, parallel, obs, i) && EndsBadly(obs.wait(i), cause))
    || (exists text :: LaunchFails(Swept(ts, obs), parallel, obs, i, cause, text))
  }

  ghost predicate LaunchFails(ts: seq<TaskRun>, parallel: bool, obs: Observation, i: nat, cause: Cause, text: string)
    requires i < |ts|
  {
    && StartsWith(ts, parallel, obs, i, text) && obs.launch(i, text).LaunchRefused?
    && cause == LaunchError(obs.launch(i, text).error)
  }

  /** The launch loop acts on the task, and its prompt does not expand. */
  ghost predicate PromptFails(ts: seq<TaskRun>, parallel: bool, obs: Observation, i: nat, e: TemplateError)
    requires i < |ts|
  {
    && Acts(ts, parallel, obs, i) && ts[i].def.peer.None?
    && ExpansionFails(ts[i].def.prompt, CompletedOutputs(ts), obs.read(i), e)
  }

  /** What a failed attempt leaves: its outcome and, unless another one is left, the failed task. */
  ghost predicate LeavesFailure(u: TaskRun, cause: Cause) {
    && u.attempts != [] && u.attempts[|u.attempts| - 1].outcome == Some(FailedWith(cause))
    && u.state == if u.attemptsStarted >= u.maxAttempts then Failed(cause) else RetryQueued(cause, u.attemptsStarted + 1)
  }

  lemma {:induction false} FailedPoll(
    file: TaskFile, ts: seq<TaskRun>, parallel: bool, obs: Observation, i: nat, cause: Cause)
    requires Inv(file, ts) && i < |ts| && Polls(ts, parallel, obs, i) && EndsBadly(obs.wait(i), cause)
    ensures LeavesFailure(Iteration(ts, parallel, obs)[i], cause)
  {
    IterationPolls(file, ts, parallel, obs, i);
  }

  lemma {:induction false} FailedLaunch(
    file: TaskFile, ts: seq<TaskRun>, parallel: bool, obs: Observation, i: nat, cause: Cause, text: string)
    requires Inv(file, ts) && i < |ts| && LaunchFails(Swept(ts, obs), parallel, obs, i, cause, text)
    ensures LeavesFailure(Iteration(ts, parallel, obs)[i], cause) && !Polls(ts, parallel, obs, i)
  {
    LaunchStarts(Swept(ts, obs), parallel, obs, i, text);
    IterationPolls(file, ts, parallel, obs, i);
  }

  /** Whether an attempt is left decides what a failed one comes to. */
  lemma {:induction false} FailedAttempt(
    file: TaskFile, ts: seq<TaskRun>, parallel: bool, obs: Observation, i: nat, cause: Cause)
    requires Inv(file, ts) && i < |ts| && AttemptFails(ts, parallel, obs, i, cause)
    ensures LeavesFailure(Iteration(ts, parallel, obs)[i], cause)
  {
    if text :| LaunchFails(Swept(ts, obs), parallel, obs, i, cause, text) {
      FailedLaunch(file, ts, parallel, obs, i, cause, text);
    } else {
      FailedPoll(file, ts, parallel, obs, i, cause);
    }
  }

  /** How the launch loop can fail a task. */
  lemma {:induction false} LaunchLoopFails(ts: seq<TaskRun>, parallel: bool, obs: Observation, i: nat, cause: Cause)
    requires i < |ts|
    ensures var u := LaunchPass(ts, parallel, obs)[i];
      u.state == Failed(cause) <==>
        || ts[i].state == Failed(cause)
        || (cause.TemplateFailed? && PromptFails(ts, parallel, obs, i, cause.template))
        || (u.attemptsStarted >= u.maxAttempts && exists text :: LaunchFails(ts, parallel, obs, i, cause, text))
  {
    LaunchExactly(ts, parallel, obs, i);
    if Acts(ts, parallel, obs, i) {
      ActedFails(ts, parallel, obs, i, cause);
    }
  }

  lemma {:induction false} ActedFails(ts: seq<TaskRun>, parallel: bool, obs: Observation, i: nat, cause: Cause)
    requires i < |ts| && Acts(ts, parallel, obs, i)
    ensures var u := LaunchOne(ts[i], i, CompletedOutputs(ts), obs);
      u.state == Failed(cause) <==>
        || (cause.TemplateFailed? && PromptFails(ts, parallel, obs, i, cause.template))
        || (u.attemptsStarted >= u.maxAttempts && exists text :: LaunchFails(ts, parallel, obs, i, cause, text))
  {
    var outputs := CompletedOutputs(ts);
    LaunchIs(ts[i], i, outputs, obs);
    PromptIsExpansion(ts[i].def.prompt, outputs, obs.read(i));
    var prompt := LaunchPrompt(ts[i].def.prompt, outputs, obs.read(i));
    if ts[i].def.peer.None? && prompt.Ok? {
      assert StartsWith(ts, parallel, obs, i, prompt.value);
      var answer := obs.launch(i, prompt.value);
      if answer.LaunchRefused? && cause.LaunchError? && cause.error == answer.error {
        assert LaunchFails(ts, parallel, obs, i, cause, prompt.value);
      }
    }
  }

  /**
   A task has failed after an iteration iff it had before, or its prompt did not expand, or an
   attempt of it failed in the iteration and none is left; and for that cause.
   */
  lemma {:induction false} FailedIff(
    file: TaskFile, ts: seq<TaskRun>, parallel: bool, obs: Observation, i: nat, cause: Cause)
    requires Inv(file, ts) && i < |ts|
    ensures var u := Iteration(ts, parallel, obs)[i];
      u.state == Failed(cause) <==>
        || ts[i].state == Failed(cause)
        || (cause.TemplateFailed? && PromptFails(Swept(ts, obs), parallel, obs, i, cause.template))
        || (AttemptFails(ts, parallel, obs, i, cause) && u.attemptsStarted >= u.maxAttempts)
  {
    SweepIs(ts, obs, i);
    LaunchLoopFails(Swept(ts, obs), parallel, obs, i, cause);
    IterationPolls(file, ts, parallel, obs, i);
    if AttemptFails(ts, parallel, obs, i, cause) {
      FailedAttempt(file, ts, parallel, obs, i, cause);
    }
    if Polls(ts, parallel, obs, i) {
      EndsSomehow(obs.wait(i));
    }
  }

  /** An iteration aborts the process iff some prompt asks for a log that cannot be cut. */
  lemma {:induction false} PanicsIff(file: TaskFile, ts: seq<TaskRun>, parallel: bool, obs: Observation)
    requires Inv(file, ts) && !SomePanicked(ts)
    ensures SomePanicked(Iteration(ts, parallel, obs)) <==>
      exists i, name :: 0 <= i < |ts| && PromptFails(Swept(ts, obs), parallel, obs, i, CapturePanicked(name))
  {
    var us := Iteration(ts, parallel, obs);
    if i :| 0 <= i < |us| && Panicked(us[i]) {
      FailedIff(file, ts, parallel, obs, i, us[i].state.cause);
      assert !Panicked(ts[i]);
      if AttemptFails(ts, parallel, obs, i, us[i].state.cause) {
        AttemptCause(ts, parallel, obs, i, us[i].state.cause);
      }
      assert PromptFails(Swept(ts, obs), parallel, obs, i, CapturePanicked(us[i].state.cause.template.task));
    }
    if i, name :| 0 <= i < |ts| && PromptFails(Swept(ts, obs), parallel, obs, i, CapturePanicked(name)) {
      FailedIff(file, ts, parallel, obs, i, TemplateFailed(CapturePanicked(name)));
      assert Panicked(us[i]);
    }
  }

  lemma AttemptCause(ts: seq<TaskRun>, parallel: bool, obs: Observation, i: nat, cause: Cause)
    requires i < |ts| && AttemptFails(ts, parallel, obs, i, cause)
    ensures !cause.TemplateFailed?
  {}
}
