/**
 The state of a run and what one iteration of the poll loop does to it
 (`run_tasks` in src/orchestrator.rs), as functions of the environment's answers.
 */
module TaskRuns {
  import opened Numbers
  import opened Options
  import opened Text
  import opened Strings
  import opened Templates
  import opened TaskFiles

  // ---------------------------------------------------------------- state

  datatype Cause =
    | TemplateFailed(template: TemplateError)
    | LaunchError(error: string)
    | ExitStatus(code: Option<int>) // None: killed by a signal
    | WaitError(error: string)

  datatype SkipReason =
    | DependencyFailed(deps: seq<string>)
    | RemotePeer(peer: string)

  datatype TaskState =
    | Pending
    | RetryQueued(cause: Cause, nextAttempt: nat)
    | Running
    | Completed
    | Failed(cause: Cause)
    | Skipped(why: SkipReason)
    | Aborted(started: bool)

  datatype Outcome = Finished | FailedWith(cause: Cause) | AbortedByUser

  /** One entry of a task's attempt history. */
  datatype Attempt = Attempt(
    number: nat, pid: Option<nat>, stdoutLog: Option<LogPath>, outcome: Option<Outcome>, duration: Option<nat>)

  /** `TaskRun`; `child` is the process handle, known by its id, and times are milliseconds. */
  datatype TaskRun = TaskRun(
    def: TaskDef,
    state: TaskState,
    pid: Option<nat>,
    startTime: Option<nat>,
    child: Option<nat>,
    stdoutLog: Option<LogPath>,
    attemptsStarted: nat,
    maxAttempts: nat,
    nextRetryAt: Option<nat>,
    attempts: seq<Attempt>)

  predicate Terminal(s: TaskState) {
    s.Completed? || s.Failed? || s.Skipped? || s.Aborted?
  }

  /** Waiting to be launched, for the first time or again. */
  predicate Queued(s: TaskState) {
    s.Pending? || s.RetryQueued?
  }

  /** Terminal without having completed. */
  predicate Doomed(s: TaskState) {
    s.Failed? || s.Skipped? || s.Aborted?
  }

  /** The attempts a task gets: the first is never checked against the limit. */
  function Allowed(maxAttempts: nat): nat {
    AtLeastOne(maxAttempts)
  }

  /** Expanding this task's prompt panicked: the process aborts, and the record with it. */
  predicate Panicked(t: TaskRun) {
    t.state.Failed? && t.state.cause.TemplateFailed? && t.state.cause.template.CapturePanicked?
  }

  predicate SomePanicked(ts: seq<TaskRun>) {
    exists i :: 0 <= i < |ts| && Panicked(ts[i])
  }

  predicate AllTerminal(ts: seq<TaskRun>) {
    forall i :: 0 <= i < |ts| ==> Terminal(ts[i].state)
  }

  function NewRun(file: TaskFile, def: TaskDef): TaskRun {
    TaskRun(def, Pending, None, None, None, None, 0, ResolvedMaxAttempts(file.retries, def.retries), None, [])
  }

  function InitialRuns(file: TaskFile): seq<TaskRun> {
    seq(|file.tasks|, i requires 0 <= i < |file.tasks| => NewRun(file, file.tasks[i]))
  }

  // ---------------------------------------------------------------- the environment

  datatype LaunchAnswer = Launched(pid: nat) | LaunchRefused(error: string)

  datatype WaitAnswer = StillRunning | Exited(code: Option<int>) | WaitFailed(error: string)

  /**
   What the environment answers during one iteration. The cancel flag is read once at the top
   and once per queued task; `cancelFrom` is the first of these reads that finds it set
   (0 is the read at the top, `i + 1` the one before task `i`). Functions of a task's index
   give the clock during the launch and the poll of that task, the answer to launching it with
   a given prompt, the answer to polling its process, and what each log holds when it is launched.
   */
  datatype Observation = Observation(
    cancelFrom: nat,
    abortClock: nat,
    launchClock: nat -> nat,
    pollClock: nat -> nat,
    launch: (nat, string) -> LaunchAnswer,
    wait: nat -> WaitAnswer,
    read: nat -> LogPath -> Option<string>,
    reportOk: bool)

  predicate CancelAtTop(obs: Observation) {
    obs.cancelFrom == 0
  }

  predicate CancelBefore(obs: Observation, i: nat) {
    obs.cancelFrom <= i + 1
  }

  /** No read of the flag in this iteration, over `n` tasks, finds it set. */
  predicate Uncancelled(obs: Observation, n: nat) {
    obs.cancelFrom > n
  }

  // ---------------------------------------------------------------- names by state

  function CompletedNames(ts: seq<TaskRun>): set<string> {
    set t | t in ts && t.state.Completed? :: t.def.name
  }

  function DoomedNames(ts: seq<TaskRun>): set<string> {
    set t | t in ts && Doomed(t.state) :: t.def.name
  }

  /** The map that template expansion reads: completed tasks to their latest stdout log. */
  function CompletedOutputs(ts: seq<TaskRun>): map<string, LogPath> {
    if ts == [] then map[]
    else
      var last := ts[|ts| - 1];
      var outputs := CompletedOutputs(ts[..|ts| - 1]);
      if last.state.Completed? && last.stdoutLog.Some? then outputs[last.def.name := last.stdoutLog.value]
      else outputs
  }

  // ---------------------------------------------------------------- marking and aborting

  function FailedDeps(deps: seq<string>, doomed: set<string>): (r: seq<string>)
    ensures forall d :: d in r <==> d in deps && d in doomed
  {
    if deps == [] then []
    else (if deps[0] in doomed then [deps[0]] else []) + FailedDeps(deps[1..], doomed)
  }

  /** One task under `mark_dependency_failures`. */
  function MarkOne(t: TaskRun, doomed: set<string>): TaskRun {
    if Queued(t.state) && FailedDeps(t.def.dependsOn, doomed) != [] then
      t.(state := Skipped(DependencyFailed(FailedDeps(t.def.dependsOn, doomed))))
    else t
  }

  /** One marking pass: the doomed set is fixed before it starts. */
  function Marked(ts: seq<TaskRun>): seq<TaskRun> {
    seq(|ts|, i requires 0 <= i < |ts| => MarkOne(ts[i], DoomedNames(ts)))
  }

  /** Whole seconds since the attempt started. */
  function Elapsed(t: TaskRun, now: nat): Option<nat> {
    if t.startTime.None? then None
    else if now < t.startTime.value then Some(0)
    else Some((now - t.startTime.value) / 1000)
  }

  function SetLatestOutcome(attempts: seq<Attempt>, outcome: Outcome, duration: Option<nat>): seq<Attempt> {
    if attempts == [] then []
    else attempts[|attempts| - 1 := attempts[|attempts| - 1].(outcome := Some(outcome), duration := duration)]
  }

  /** One task under `abort_tasks`. */
  function AbortOne(t: TaskRun, now: nat): TaskRun {
    if t.state.Running? then
      t.(child := None, pid := None, startTime := None, state := Aborted(true),
         attempts := SetLatestOutcome(t.attempts, AbortedByUser, Elapsed(t, now)))
    else if Queued(t.state) then
      t.(state := Aborted(false), nextRetryAt := None)
    else t
  }

  function AbortedRuns(ts: seq<TaskRun>, now: nat): seq<TaskRun> {
    seq(|ts|, i requires 0 <= i < |ts| => AbortOne(ts[i], now))
  }

  // ---------------------------------------------------------------- launching

  function Min(a: nat, b: nat): nat { if a < b then a else b }

  function Max(a: nat, b: nat): nat { if a < b then b else a }

  /** `queue_retry` when it returns true: attempts are left. */
  function QueueRetry(t: TaskRun, cause: Cause, now: nat): TaskRun {
    t.(state := RetryQueued(cause, t.attemptsStarted + 1),
       nextRetryAt := Some(now + 1000 * Max(Min(t.attemptsStarted, 3), 1)),
       child := None, pid := None, startTime := None)
  }

  /** After a failed attempt: queue another one if any is left, otherwise fail. */
  function RetryOrFail(t: TaskRun, cause: Cause, now: nat): TaskRun {
    if t.attemptsStarted >= t.maxAttempts then t.(state := Failed(cause))
    else QueueRetry(t, cause, now)
  }

  /** `sanitize_task_name`, which names the log files. */
  function Slug(name: string): string {
    var kept := SlugChars(name);
    if kept == "" then "task" else kept
  }

  function SlugChars(name: string): string {
    if name == "" then ""
    else
      var c := name[0];
      (if 'A' <= c <= 'Z' then [c - 'A' + 'a']
       else if 'a' <= c <= 'z' || '0' <= c <= '9' || c == '-' || c == '_' || c == '.' then [c]
       else if IsWhitespace(c) then "-"
       else "") + SlugChars(name[1..])
  }

  /** The file name of an attempt's stdout log in the run's directory. */
  function LogName(slug: string, attempt: nat): LogPath {
    slug + ".attempt" + ['-'] + (Decimal(attempt) + ".stdout.log")
  }

  predicate Due(t: TaskRun, now: nat) {
    t.nextRetryAt.Some? ==> t.nextRetryAt.value <= now
  }

  predicate DepsIn(t: TaskRun, done: set<string>) {
    forall d :: d in t.def.dependsOn ==> d in done
  }

  /** The prompt a task is launched with. */
  function LaunchPrompt(prompt: string, outputs: map<string, LogPath>, read: LogPath -> Option<string>)
    : Result<string, TemplateError>
  {
    if FindPair(prompt, '{').Some? then Expand(Parse(prompt), outputs, read) else Ok(prompt)
  }

  /** The last part of the launch loop, for a queued task that nothing holds back. */
  function LaunchOne(t: TaskRun, i: nat, outputs: map<string, LogPath>, obs: Observation): TaskRun {
    if t.def.peer.Some? then
      t.(state := Skipped(RemotePeer(t.def.peer.value)))
    else
      match LaunchPrompt(t.def.prompt, outputs, obs.read(i))
      case Err(e) => t.(state := Failed(TemplateFailed(e)))
      case Ok(prompt) => StartAttempt(t, i, obs.launch(i, prompt), obs.launchClock(i))
  }

  function StartAttempt(t: TaskRun, i: nat, answer: LaunchAnswer, now: nat): TaskRun {
    var attempt := t.attemptsStarted + 1;
    match answer
    case Launched(pid) =>
      var log := LogName(Slug(t.def.name), attempt);
      t.(attemptsStarted := attempt, pid := Some(pid), startTime := Some(now), stdoutLog := Some(log),
         child := Some(pid), state := Running, nextRetryAt := None,
         attempts := t.attempts + [Attempt(attempt, Some(pid), Some(log), None, None)])
    case LaunchRefused(error) =>
      var cause := LaunchError(error);
      RetryOrFail(
        t.(attemptsStarted := attempt,
           attempts := t.attempts + [Attempt(attempt, None, None, Some(FailedWith(cause)), None)]),
        cause, now)
  }

  /** What the launch loop reads once, before its first task. */
  datatype Snapshot = Snapshot(parallel: bool, done: set<string>, outputs: map<string, LogPath>)

  function SnapshotOf(ts: seq<TaskRun>, parallel: bool): Snapshot {
    Snapshot(parallel, CompletedNames(ts), CompletedOutputs(ts))
  }

  /** Queued, its timer has run out and its dependencies have completed. */
  predicate Ready(t: TaskRun, i: nat, snap: Snapshot, obs: Observation) {
    Queued(t.state) && Due(t, obs.launchClock(i)) && DepsIn(t, snap.done)
  }

  /** The launch loop from task `i` on, with `running` tasks running; a panic ends it. */
  function LaunchFrom(ts: seq<TaskRun>, i: nat, running: nat, snap: Snapshot, obs: Observation): (r: seq<TaskRun>)
    requires i <= |ts|
    ensures |r| == |ts|
    decreases |ts| - i
  {
    if i == |ts| then ts
    else if Queued(ts[i].state) && CancelBefore(obs, i) then ts
    else if !Ready(ts[i], i, snap, obs) then LaunchFrom(ts, i + 1, running, snap, obs)
    else if !snap.parallel && running > 0 then ts
    else
      var t := LaunchOne(ts[i], i, snap.outputs, obs);
      if Panicked(t) then ts[i := t]
      else LaunchFrom(ts[i := t], i + 1, if t.state.Running? then running + 1 else running, snap, obs)
  }

  function CountRunning(ts: seq<TaskRun>): nat {
    if ts == [] then 0
    else CountRunning(ts[..|ts| - 1]) + if ts[|ts| - 1].state.Running? then 1 else 0
  }

  function LaunchPass(ts: seq<TaskRun>, parallel: bool, obs: Observation): seq<TaskRun> {
    LaunchFrom(ts, 0, CountRunning(ts), SnapshotOf(ts, parallel), obs)
  }

  // ---------------------------------------------------------------- polling

  /** One task under the poll loop; a running task without a process handle stays as it is. */
  function PollOne(t: TaskRun, i: nat, obs: Observation): TaskRun {
    if !t.state.Running? || t.child.None? then t
    else
      match obs.wait(i)
      case StillRunning => t
      case Exited(code) =>
        if code == Some(0) then
          Reaped(t, Finished, obs.pollClock(i)).(state := Completed)
        else
          RetryOrFail(Reaped(t, FailedWith(ExitStatus(code)), obs.pollClock(i)), ExitStatus(code), obs.pollClock(i))
      case WaitFailed(e) =>
        RetryOrFail(Reaped(t, FailedWith(WaitError(e)), obs.pollClock(i)), WaitError(e), obs.pollClock(i))
  }

  /** The process is gone and its attempt has an outcome. */
  function Reaped(t: TaskRun, outcome: Outcome, now: nat): TaskRun {
    t.(child := None, pid := None, startTime := None,
       attempts := SetLatestOutcome(t.attempts, outcome, Elapsed(t, now)))
  }

  function PollPass(ts: seq<TaskRun>, obs: Observation): seq<TaskRun> {
    seq(|ts|, i requires 0 <= i < |ts| => PollOne(ts[i], i, obs))
  }

  // ---------------------------------------------------------------- iterations and runs

  function Swept(ts: seq<TaskRun>, obs: Observation): seq<TaskRun> {
    Marked(if CancelAtTop(obs) then AbortedRuns(ts, obs.abortClock) else ts)
  }

  /** The poll pass, which an aborted process does not reach. */
  function Polled(ts: seq<TaskRun>, obs: Observation): seq<TaskRun> {
    if SomePanicked(ts) then ts else PollPass(ts, obs)
  }

  /** The body of the poll loop. */
  function Iteration(ts: seq<TaskRun>, parallel: bool, obs: Observation): seq<TaskRun> {
    Polled(LaunchPass(Swept(ts, obs), parallel, obs), obs)
  }

  /** Where the loop is after some observations: still polling, or left. */
  datatype Loop =
    | Polling(tasks: seq<TaskRun>)
    | Crashed(tasks: seq<TaskRun>)    // aborted by a panic while expanding a prompt
    | Unreported(tasks: seq<TaskRun>) // left because the report could not be written
    | Ended(tasks: seq<TaskRun>)

  function Run(ts: seq<TaskRun>, parallel: bool, script: seq<Observation>): Loop
    decreases |script|
  {
    if script == [] then Polling(ts)
    else
      var next := Iteration(ts, parallel, script[0]);
      if SomePanicked(next) then Crashed(next)
      else if !script[0].reportOk then Unreported(next)
      else if AllTerminal(next) then Ended(next)
      else Run(next, parallel, script[1..])
  }

  /** The loop goes on after an iteration that led here. */
  predicate GoesOn(next: seq<TaskRun>, obs: Observation) {
    !SomePanicked(next) && obs.reportOk && !AllTerminal(next)
  }

  /** Once a flag read finds the flag set, every later iteration finds it set at the top. */
  ghost predicate CancelSticks(script: seq<Observation>, n: nat) {
    forall j, k :: 0 <= j < k < |script| && !Uncancelled(script[j], n) ==> CancelAtTop(script[k])
  }

  ghost predicate NeverCancelled(script: seq<Observation>, n: nat) {
    forall k :: 0 <= k < |script| ==> Uncancelled(script[k], n)
  }

  // ---------------------------------------------------------------- counts and the result

  datatype RunCounts = RunCounts(
    completed: nat, running: nat, pending: nat, retrying: nat, failed: nat, skipped: nat, aborted: nat)

  function Tally(c: RunCounts, s: TaskState): RunCounts {
    match s
    case Pending => c.(pending := c.pending + 1)
    case RetryQueued(_, _) => c.(retrying := c.retrying + 1)
    case Running => c.(running := c.running + 1)
    case Completed => c.(completed := c.completed + 1)
    case Failed(_) => c.(failed := c.failed + 1)
    case Skipped(_) => c.(skipped := c.skipped + 1)
    case Aborted(_) => c.(aborted := c.aborted + 1)
  }

  function CountsOf(ts: seq<TaskRun>): RunCounts {
    if ts == [] then RunCounts(0, 0, 0, 0, 0, 0, 0)
    else Tally(CountsOf(ts[..|ts| - 1]), ts[|ts| - 1].state)
  }

  /** What `run_tasks` returns. `NotYet`: the observations ran out before the loop was left. */
  datatype RunEnd =
    | Rejected(error: FileError)
    | NoRunDir
    | ProcessAborted
    | ReportFailed
    | AllCompleted
    | Interrupted(failed: nat, skipped: nat, aborted: nat)
    | SomeFailed(failed: nat, skipped: nat)
    | NotYet

  function EndOf(c: RunCounts): RunEnd {
    if c.failed == 0 && c.aborted == 0 && c.skipped == 0 then AllCompleted
    else if c.aborted > 0 then Interrupted(c.failed, c.skipped, c.aborted)
    else SomeFailed(c.failed, c.skipped)
  }

  function ResultOf(loop: Loop, summaryOk: bool): RunEnd {
    match loop
    case Polling(_) => NotYet
    case Crashed(_) => ProcessAborted
    case Unreported(_) => ReportFailed
    case Ended(ts) => if summaryOk then EndOf(CountsOf(ts)) else ReportFailed
  }
}
