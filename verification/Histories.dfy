/** What whole runs do to a task's record and what they end with, said of their single iterations. */
module Histories {
  import opened Options
  import opened TaskFiles
  import opened TaskRuns
  import opened RunInvariant
  import opened RunOutcome
  import opened Turns

  // ---------------------------------------------------------------- the iterations of a run

  /** The run gets to iteration `k`, and starts it from the records `before`. */
  ghost predicate Starts(ts: seq<TaskRun>, parallel: bool, script: seq<Observation>, k: nat, before: seq<TaskRun>)
    decreases k
  {
    && k < |script|
    && if k == 0 then before == ts
       else
         var next := Iteration(ts, parallel, script[0]);
         GoesOn(next, script[0]) && Starts(next, parallel, script[1..], k - 1, before)
  }

  // ---------------------------------------------------------------- which tasks complete

  /** In iteration `k` the task's process is polled and has exited with status 0. */
  ghost predicate ExitsWellIn(
    ts: seq<TaskRun>, parallel: bool, script: seq<Observation>, i: nat, k: nat, before: seq<TaskRun>)
  {
    && Starts(ts, parallel, script, k, before)
    && Polls(before, parallel, script[k], i) && script[k].wait(i) == Exited(Some(0))
  }

  /** A task completes in a run iff it had, or in some iteration its process is polled and has exited with status 0. */
  lemma {:induction false} CompletedIff(file: TaskFile, ts: seq<TaskRun>, parallel: bool, script: seq<Observation>, i: nat)
    requires Inv(file, ts) && i < |ts|
    ensures |Run(ts, parallel, script).tasks| == |ts|
    ensures Run(ts, parallel, script).tasks[i].state.Completed? <==>
      ts[i].state.Completed? || exists k: nat, before :: ExitsWellIn(ts, parallel, script, i, k, before)
    decreases |script|
  {
    RunKeeps(file, ts, parallel, script);
    if script != [] {
      var next := Iteration(ts, parallel, script[0]);
      CompletesIff(file, ts, parallel, script[0], i);
      IterationKeeps(file, ts, parallel, script[0]);
      FirstOrLater(ts, parallel, script, i);
      if GoesOn(next, script[0]) {
        CompletedIff(file, next, parallel, script[1..], i);
      }
    }
  }

  lemma {:induction false} FirstOrLater(ts: seq<TaskRun>, parallel: bool, script: seq<Observation>, i: nat)
    requires script != []
    ensures (exists k: nat, before :: ExitsWellIn(ts, parallel, script, i, k, before)) <==>
      || (Polls(ts, parallel, script[0], i) && script[0].wait(i) == Exited(Some(0)))
      || (GoesOn(Iteration(ts, parallel, script[0]), script[0])
          && exists k: nat, before :: ExitsWellIn(Iteration(ts, parallel, script[0]), parallel, script[1..], i, k, before))
  {
    var next := Iteration(ts, parallel, script[0]);
    if Polls(ts, parallel, script[0], i) && script[0].wait(i) == Exited(Some(0)) {
      assert ExitsWellIn(ts, parallel, script, i, 0, ts);
    }
    forall k: nat, before
      ensures ExitsWellIn(ts, parallel, script, i, k + 1, before) <==>
        GoesOn(next, script[0]) && ExitsWellIn(next, parallel, script[1..], i, k, before)
    {}
    if k: nat, before :| ExitsWellIn(ts, parallel, script, i, k, before) && k > 0 {
      assert ExitsWellIn(next, parallel, script[1..], i, k - 1, before);
    }
    if k: nat, before :| GoesOn(next, script[0]) && ExitsWellIn(next, parallel, script[1..], i, k, before) {
      assert ExitsWellIn(ts, parallel, script, i, k + 1, before);
    }
  }

  /**
   So a task none of whose polls finds that its process exited with status 0 is never completed, in any
   run of the file.
   */
  lemma {:induction false} NeverCompleted(file: TaskFile, parallel: bool, script: seq<Observation>, i: nat)
    requires i < |file.tasks| && forall k :: 0 <= k < |script| ==> script[k].wait(i) != Exited(Some(0))
    ensures var ts := Run(InitialRuns(file), parallel, script).tasks; |ts| == |file.tasks| && !ts[i].state.Completed?
  {
    InitialInv(file);
    CompletedIff(file, InitialRuns(file), parallel, script, i);
  }

  // ---------------------------------------------------------------- the attempts on record

  /** Attempts are only added, and what is closed is never changed; an open one keeps its process and log. */
  ghost predicate HistoryKept(t: TaskRun, u: TaskRun) {
    && |t.attempts| <= |u.attempts|
    && forall k :: 0 <= k < |t.attempts| ==> EntryKept(t.attempts[k], u.attempts[k])
  }

  ghost predicate EntryKept(a: Attempt, b: Attempt) {
    if a.outcome.Some? then b == a
    else b.number == a.number && b.pid == a.pid && b.stdoutLog == a.stdoutLog
  }

  lemma {:induction false} KeptTwice(t: TaskRun, u: TaskRun, v: TaskRun)
    requires HistoryKept(t, u) && HistoryKept(u, v)
    ensures HistoryKept(t, v)
  {
    forall k | 0 <= k < |t.attempts| ensures EntryKept(t.attempts[k], v.attempts[k]) {
      assert EntryKept(t.attempts[k], u.attempts[k]) && EntryKept(u.attempts[k], v.attempts[k]);
    }
  }

  /** The last attempt's outcome is the one that the state tells of. */
  ghost predicate Told(t: TaskRun) {
    match t.state
    case Completed => LastOutcome(t, Finished)
    case RetryQueued(cause, _) => LastOutcome(t, FailedWith(cause))
    case Failed(cause) => cause.TemplateFailed? || LastOutcome(t, FailedWith(cause))
    case Aborted(started) => started ==> LastOutcome(t, AbortedByUser)
    case _ => true
  }

  ghost predicate LastOutcome(t: TaskRun, outcome: Outcome) {
    t.attempts != [] && t.attempts[|t.attempts| - 1].outcome == Some(outcome)
  }

  lemma {:induction false} SweepTells(t: TaskRun, doomed: set<string>, now: nat)
    requires Bookkeeping(t) && Told(t)
    ensures Told(MarkOne(t, doomed)) && HistoryKept(t, MarkOne(t, doomed))
    ensures Told(AbortOne(t, now)) && HistoryKept(t, AbortOne(t, now))
  {}

  lemma {:induction false} StartTells(t: TaskRun, i: nat, answer: LaunchAnswer, now: nat)
    requires Bookkeeping(t) && Told(t) && Queued(t.state)
    ensures var u := StartAttempt(t, i, answer, now); Told(u) && HistoryKept(t, u)
  {}

  lemma {:induction false} LaunchTells(ts: seq<TaskRun>, parallel: bool, obs: Observation, i: nat)
    requires i < |ts| && Bookkeeping(ts[i]) && Told(ts[i])
    ensures var u := LaunchPass(ts, parallel, obs)[i]; Told(u) && HistoryKept(ts[i], u)
  {
    LaunchExactly(ts, parallel, obs, i);
    if Acts(ts, parallel, obs, i) && ts[i].def.peer.None? {
      var prompt := LaunchPrompt(ts[i].def.prompt, CompletedOutputs(ts), obs.read(i));
      if prompt.Ok? {
        StartTells(ts[i], i, obs.launch(i, prompt.value), obs.launchClock(i));
      }
    }
  }

  lemma {:induction false} PollTells(t: TaskRun, i: nat, obs: Observation)
    requires Bookkeeping(t) && Told(t)
    ensures Told(PollOne(t, i, obs)) && HistoryKept(t, PollOne(t, i, obs))
  {
    if t.state.Running? && t.child.Some? {
      PollIs(t, i, obs);
      PollKeepsAttempts(t, i, obs);
      EndsSomehow(obs.wait(i));
    }
  }

  lemma {:induction false} SweptTells(file: TaskFile, ts: seq<TaskRun>, obs: Observation, i: nat)
    requires Inv(file, ts) && i < |ts| && Told(ts[i])
    ensures Told(Swept(ts, obs)[i]) && HistoryKept(ts[i], Swept(ts, obs)[i])
  {
    var first := if CancelAtTop(obs) then AbortedRuns(ts, obs.abortClock) else ts;
    BooksOf(file, ts, i);
    if CancelAtTop(obs) {
      AbortPassKeeps(file, ts, obs.abortClock);
    }
    SweepTells(ts[i], {}, obs.abortClock);
    BooksOf(file, first, i);
    SweepTells(first[i], DoomedNames(first), 0);
    KeptTwice(ts[i], first[i], Swept(ts, obs)[i]);
  }

  lemma {:induction false} IterationTells(file: TaskFile, ts: seq<TaskRun>, parallel: bool, obs: Observation, i: nat)
    requires Inv(file, ts) && i < |ts| && Told(ts[i])
    ensures var u := Iteration(ts, parallel, obs)[i]; Told(u) && HistoryKept(ts[i], u)
  {
    var s, us := Swept(ts, obs), AfterLaunch(ts, parallel, obs);
    SweptTells(file, ts, obs, i);
    LaunchedKeeps(file, ts, parallel, obs);
    BooksOf(file, s, i);
    LaunchTells(s, parallel, obs, i);
    BooksOf(file, us, i);
    PollTells(us[i], i, obs);
    KeptTwice(ts[i], s[i], us[i]);
    KeptTwice(ts[i], us[i], PollOne(us[i], i, obs));
  }

  /** In every run the history is append-only, and each state agrees with the outcome of the last attempt. */
  lemma {:induction false} RunTells(file: TaskFile, ts: seq<TaskRun>, parallel: bool, script: seq<Observation>, i: nat)
    requires Inv(file, ts) && i < |ts| && Told(ts[i])
    ensures |Run(ts, parallel, script).tasks| == |ts|
    ensures var u := Run(ts, parallel, script).tasks[i]; Told(u) && HistoryKept(ts[i], u)
    decreases |script|
  {
    if script != [] {
      var next := Iteration(ts, parallel, script[0]);
      IterationKeeps(file, ts, parallel, script[0]);
      IterationTells(file, ts, parallel, script[0], i);
      if GoesOn(next, script[0]) {
        RunTells(file, next, parallel, script[1..], i);
        KeptTwice(ts[i], next[i], Run(ts, parallel, script).tasks[i]);
      }
    }
  }

  /** So in every reachable state. */
  lemma {:induction false} ReachableTells(file: TaskFile, parallel: bool, ts: seq<TaskRun>, i: nat)
    requires Reachable(file, parallel, ts) && i < |ts|
    ensures Told(ts[i])
  {
    var script :| ts == Run(InitialRuns(file), parallel, script).tasks;
    InitialInv(file);
    ReachableInv(file, parallel, script);
    RunTells(file, InitialRuns(file), parallel, script, i);
  }

  // ---------------------------------------------------------------- the result

  predicate IsCompleted(s: TaskState) { s.Completed? }

  predicate IsRunning(s: TaskState) { s.Running? }

  predicate IsPending(s: TaskState) { s.Pending? }

  predicate Retries(s: TaskState) { s.RetryQueued? }

  predicate HasFailed(s: TaskState) { s.Failed? }

  predicate WasSkipped(s: TaskState) { s.Skipped? }

  predicate WasAborted(s: TaskState) { s.Aborted? }

  /** The tasks in such a state. */
  function TasksThat(ts: seq<TaskRun>, p: TaskState -> bool): set<nat> {
    set i: nat | i < |ts| && p(ts[i].state)
  }

  lemma {:induction false} OneMoreTask(ts: seq<TaskRun>, n: nat, p: TaskState -> bool)
    requires |ts| == n + 1
    ensures |TasksThat(ts, p)| == |TasksThat(ts[..n], p)| + if p(ts[n].state) then 1 else 0
  {
    var init := TasksThat(ts[..n], p);
    assert TasksThat(ts, p) == init + if p(ts[n].state) then {n} else {};
  }

  /** Each count is the number of the tasks in that state. */
  ghost predicate Counts(c: RunCounts, ts: seq<TaskRun>) {
    && c.completed == |TasksThat(ts, IsCompleted)| && c.running == |TasksThat(ts, IsRunning)|
    && c.pending == |TasksThat(ts, IsPending)| && c.retrying == |TasksThat(ts, Retries)|
    && c.failed == |TasksThat(ts, HasFailed)| && c.skipped == |TasksThat(ts, WasSkipped)|
    && c.aborted == |TasksThat(ts, WasAborted)|
  }

  lemma {:induction false} CountsAreSizes(ts: seq<TaskRun>)
    ensures Counts(CountsOf(ts), ts)
    decreases |ts|
  {
    if ts != [] {
      var n := |ts| - 1;
      CountsAreSizes(ts[..n]);
      OneMoreTask(ts, n, IsCompleted);
      OneMoreTask(ts, n, IsRunning);
      OneMoreTask(ts, n, IsPending);
      OneMoreTask(ts, n, Retries);
      OneMoreTask(ts, n, HasFailed);
      OneMoreTask(ts, n, WasSkipped);
      OneMoreTask(ts, n, WasAborted);
    }
  }

  /**
   What is returned: success iff every task completed; otherwise an interruption if some task was
   aborted, and a failure if none was, with the numbers of tasks that failed, were skipped and were
   aborted. A report or summary that could not be written, and a panic, come first.
   */
  lemma {:induction false} ResultIs(ts: seq<TaskRun>, parallel: bool, script: seq<Observation>, summaryOk: bool)
    ensures var loop := Run(ts, parallel, script);
      var us, end := loop.tasks, ResultOf(loop, summaryOk);
      match loop
      case Polling(_) => end == NotYet
      case Crashed(_) => end == ProcessAborted
      case Unreported(_) => end == ReportFailed
      case Ended(_) =>
        if !summaryOk then end == ReportFailed
        else if forall i :: 0 <= i < |us| ==> us[i].state.Completed? then end == AllCompleted
        else if exists i :: 0 <= i < |us| && us[i].state.Aborted? then
          end == Interrupted(|TasksThat(us, HasFailed)|, |TasksThat(us, WasSkipped)|, |TasksThat(us, WasAborted)|)
        else end == SomeFailed(|TasksThat(us, HasFailed)|, |TasksThat(us, WasSkipped)|)
  {
    var loop := Run(ts, parallel, script);
    if loop.Ended? {
      EndedMeansTerminal(ts, parallel, script);
      SuccessMeansAllCompleted(loop.tasks);
      CountsAreSizes(loop.tasks);
    }
  }
}
