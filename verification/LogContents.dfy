/**
 What the log files hold, and whose output a prompt therefore quotes. A launch truncates the
 attempt's file (src/orchestrator.rs:992-996); an attempt on the same file that was still
 running then may write to it after that.
 */
module LogContents {
  import opened Options
  import opened Text
  import opened Templates
  import opened Placeholders
  import opened TaskFiles
  import opened TaskRuns
  import opened RunInvariant
  import opened RunOutcome
  import opened LogFiles
  import opened Passes
  import opened Turns

  // ---------------------------------------------------------------- the disk

  /** An attempt: a task's index and the attempt's number. */
  datatype Writer = Writer(task: nat, attempt: nat)

  /** A launch, with the attempts that were running on the same file. */
  datatype Launch = Launch(who: Writer, path: LogPath, others: set<Writer>)

  /** The records, the attempts that may have written to each log since it was last truncated, and all launches. */
  datatype Disk = Disk(tasks: seq<TaskRun>, writers: map<LogPath, set<Writer>>, launches: seq<Launch>)

  function RunningOn(ts: seq<TaskRun>, path: LogPath): set<Writer> {
    set j: nat | j < |ts| && ts[j].state.Running? && ts[j].stdoutLog == Some(path) :: Writer(j, ts[j].attemptsStarted)
  }

  /** Task `i` is launched, and its log truncated. */
  function LaunchOn(d: Disk, i: nat, outputs: map<string, LogPath>, obs: Observation): Disk
    requires i < |d.tasks|
  {
    var t := LaunchOne(d.tasks[i], i, outputs, obs);
    var tasks := d.tasks[i := t];
    if t.state.Running? && t.stdoutLog.Some? then
      var path, who := t.stdoutLog.value, Writer(i, t.attemptsStarted);
      var others := RunningOn(d.tasks, path);
      Disk(tasks, d.writers[path := {who} + others], d.launches + [Launch(who, path, others)])
    else d.(tasks := tasks)
  }

  /** The launch loop from task `i` on, interrupted before task `n`. */
  function LaunchDiskUpto(d: Disk, i: nat, n: nat, running: nat, snap: Snapshot, obs: Observation): Disk
    requires i <= n <= |d.tasks|
    decreases n - i
  {
    if i == n then d
    else if Queued(d.tasks[i].state) && CancelBefore(obs, i) then d
    else if !Ready(d.tasks[i], i, snap, obs) then LaunchDiskUpto(d, i + 1, n, running, snap, obs)
    else if !snap.parallel && running > 0 then d
    else
      var e := LaunchOn(d, i, snap.outputs, obs);
      if Panicked(e.tasks[i]) then e
      else LaunchDiskUpto(e, i + 1, n, if e.tasks[i].state.Running? then running + 1 else running, snap, obs)
  }

  lemma {:induction false} LaunchDiskTasks(d: Disk, i: nat, n: nat, running: nat, snap: Snapshot, obs: Observation)
    requires i <= n <= |d.tasks|
    ensures LaunchDiskUpto(d, i, n, running, snap, obs).tasks == LaunchUpto(d.tasks, i, n, running, snap, obs)
    decreases n - i
  {
    if i < n && !(Queued(d.tasks[i].state) && CancelBefore(obs, i)) {
      if !Ready(d.tasks[i], i, snap, obs) {
        LaunchDiskTasks(d, i + 1, n, running, snap, obs);
      } else if snap.parallel || running == 0 {
        var e := LaunchOn(d, i, snap.outputs, obs);
        if !Panicked(e.tasks[i]) {
          LaunchDiskTasks(e, i + 1, n, if e.tasks[i].state.Running? then running + 1 else running, snap, obs);
        }
      }
    }
  }

  /** The disk before the launch loop, and when the loop gets to task `c`. */
  function SweptDisk(d: Disk, obs: Observation): Disk {
    d.(tasks := Swept(d.tasks, obs))
  }

  function DiskBefore(d: Disk, parallel: bool, obs: Observation, c: nat): Disk
    requires c <= |d.tasks|
  {
    var s := SweptDisk(d, obs);
    LaunchDiskUpto(s, 0, c, CountRunning(s.tasks), SnapshotOf(s.tasks, parallel), obs)
  }

  function DiskIteration(d: Disk, parallel: bool, obs: Observation): Disk {
    var e := DiskBefore(d, parallel, obs, |d.tasks|);
    e.(tasks := Polled(e.tasks, obs))
  }

  lemma {:induction false} DiskIterationTasks(d: Disk, parallel: bool, obs: Observation)
    ensures DiskIteration(d, parallel, obs).tasks == Iteration(d.tasks, parallel, obs)
  {
    var s := SweptDisk(d, obs);
    LaunchDiskTasks(s, 0, |d.tasks|, CountRunning(s.tasks), SnapshotOf(s.tasks, parallel), obs);
    LaunchUptoEnd(s.tasks, 0, CountRunning(s.tasks), SnapshotOf(s.tasks, parallel), obs);
  }

  function InitialDisk(file: TaskFile): Disk {
    Disk(InitialRuns(file), map[], [])
  }

  /** A run goes on through the observations, and the disk is then this one. */
  ghost predicate Leads(d: Disk, parallel: bool, script: seq<Observation>, e: Disk)
    decreases |script|
  {
    if script == [] then d == e
    else
      var next := DiskIteration(d, parallel, script[0]);
      GoesOn(next.tasks, script[0]) && Leads(next, parallel, script[1..], e)
  }

  // ---------------------------------------------------------------- what holds of every disk

  /** The attempt's log is this file. */
  ghost predicate LoggedTo(ts: seq<TaskRun>, w: Writer, path: LogPath) {
    w.task < |ts| && 0 < w.attempt <= |ts[w.task].attempts| && ts[w.task].attempts[w.attempt - 1].stdoutLog == Some(path)
  }

  ghost predicate AllBooks(ts: seq<TaskRun>) {
    forall i :: 0 <= i < |ts| ==> Bookkeeping(ts[i])
  }

  /** Whoever may have written to a log logs there, and whoever logs somewhere left a writer there. */
  ghost predicate WritersOk(ts: seq<TaskRun>, writers: map<LogPath, set<Writer>>) {
    && (forall path, w: Writer :: path in writers && w in writers[path] ==> LoggedTo(ts, w, path))
    && (forall path, w: Writer :: LoggedTo(ts, w, path) ==> path in writers && writers[path] != {})
  }

  /** The last launch on a file. */
  function LastOn(launches: seq<Launch>, path: LogPath): (x: Option<nat>)
    ensures x.Some? ==> x.value < |launches| && launches[x.value].path == path
    ensures x.Some? ==> forall y :: x.value < y < |launches| ==> launches[y].path != path
    ensures x.None? ==> forall y :: 0 <= y < |launches| ==> launches[y].path != path
  {
    if launches == [] then None
    else if launches[|launches| - 1].path == path then Some(|launches| - 1)
    else LastOn(launches[..|launches| - 1], path)
  }

  /** The writers of a file are those of its last launch. */
  ghost predicate FollowsLaunches(d: Disk, path: LogPath) {
    match LastOn(d.launches, path)
    case None => path !in d.writers
    case Some(x) => path in d.writers && d.writers[path] == {d.launches[x].who} + d.launches[x].others
  }

  /** A launch is of a known attempt, on its own log, which was not running before. */
  ghost predicate LaunchOk(ts: seq<TaskRun>, l: Launch) {
    LoggedTo(ts, l.who, l.path) && l.who !in l.others
  }

  /** And no attempt is launched twice. */
  ghost predicate LaunchesOk(ts: seq<TaskRun>, launches: seq<Launch>) {
    && (forall x :: 0 <= x < |launches| ==> LaunchOk(ts, launches[x]))
    && (forall x, y :: 0 <= x < y < |launches| ==> launches[x].who != launches[y].who)
  }

  ghost predicate AllFollow(d: Disk) {
    forall path :: FollowsLaunches(d, path)
  }

  ghost predicate DiskOk(d: Disk) {
    AllBooks(d.tasks) && WritersOk(d.tasks, d.writers) && AllFollow(d) && LaunchesOk(d.tasks, d.launches)
  }

  /** The same attempts with the same logs. */
  ghost predicate SameLogs(ts: seq<TaskRun>, us: seq<TaskRun>) {
    |us| == |ts| && forall w: Writer, path :: LoggedTo(ts, w, path) <==> LoggedTo(us, w, path)
  }

  lemma {:induction false} SameLogsWriters(ts: seq<TaskRun>, us: seq<TaskRun>, writers: map<LogPath, set<Writer>>)
    requires WritersOk(ts, writers) && SameLogs(ts, us)
    ensures WritersOk(us, writers)
  {}

  lemma {:induction false} SameLogsLaunches(ts: seq<TaskRun>, us: seq<TaskRun>, launches: seq<Launch>)
    requires LaunchesOk(ts, launches) && SameLogs(ts, us)
    ensures LaunchesOk(us, launches)
  {
    forall x | 0 <= x < |launches| ensures LaunchOk(us, launches[x]) {
      assert LaunchOk(ts, launches[x]);
    }
  }

  lemma {:induction false} SameLogsFollow(d: Disk, us: seq<TaskRun>)
    requires AllFollow(d)
    ensures AllFollow(d.(tasks := us))
  {
    forall path ensures FollowsLaunches(d.(tasks := us), path) {
      assert FollowsLaunches(d, path);
    }
  }

  lemma {:induction false} SameLogsKeep(d: Disk, us: seq<TaskRun>)
    requires DiskOk(d) && AllBooks(us) && SameLogs(d.tasks, us)
    ensures DiskOk(d.(tasks := us))
  {
    SameLogsWriters(d.tasks, us, d.writers);
    SameLogsLaunches(d.tasks, us, d.launches);
    SameLogsFollow(d, us);
  }

  ghost predicate SameAttemptLogs(t: TaskRun, u: TaskRun) {
    |u.attempts| == |t.attempts| && forall k :: 0 <= k < |t.attempts| ==> u.attempts[k].stdoutLog == t.attempts[k].stdoutLog
  }

  lemma {:induction false} PointwiseSameLogs(ts: seq<TaskRun>, us: seq<TaskRun>)
    requires |us| == |ts| && forall i :: 0 <= i < |ts| ==> SameAttemptLogs(ts[i], us[i])
    ensures SameLogs(ts, us)
  {
    forall w: Writer, path ensures LoggedTo(ts, w, path) <==> LoggedTo(us, w, path) {
      if w.task < |ts| {
        assert SameAttemptLogs(ts[w.task], us[w.task]);
      }
    }
  }

  lemma {:induction false} OtherPassesKeepLogs(t: TaskRun, i: nat, doomed: set<string>, obs: Observation)
    ensures SameAttemptLogs(t, MarkOne(t, doomed)) && SameAttemptLogs(t, AbortOne(t, obs.abortClock))
    ensures SameAttemptLogs(t, PollOne(t, i, obs))
  {}

  lemma {:induction false} SweepSameLogs(ts: seq<TaskRun>, obs: Observation)
    ensures SameLogs(ts, Swept(ts, obs))
  {
    var first := if CancelAtTop(obs) then AbortedRuns(ts, obs.abortClock) else ts;
    forall i | 0 <= i < |ts| ensures SameAttemptLogs(ts[i], Swept(ts, obs)[i]) {
      OtherPassesKeepLogs(ts[i], i, {}, obs);
      OtherPassesKeepLogs(first[i], i, DoomedNames(first), obs);
    }
    PointwiseSameLogs(ts, Swept(ts, obs));
  }

  lemma {:induction false} PollSameLogs(ts: seq<TaskRun>, obs: Observation)
    ensures SameLogs(ts, Polled(ts, obs))
  {
    forall i | 0 <= i < |ts| ensures SameAttemptLogs(ts[i], Polled(ts, obs)[i]) {
      OtherPassesKeepLogs(ts[i], i, {}, obs);
    }
    PointwiseSameLogs(ts, Polled(ts, obs));
  }

  // ---------------------------------------------------------------- a launch keeps the disk in order

  /** What launching does to a queued record: one more attempt with its log if it started, no new log otherwise. */
  lemma {:induction false} LaunchLogs(t: TaskRun, i: nat, outputs: map<string, LogPath>, obs: Observation)
    requires Bookkeeping(t) && Queued(t.state)
    ensures var u := LaunchOne(t, i, outputs, obs);
      && Bookkeeping(u) && |t.attempts| <= |u.attempts|
      && (forall k :: 0 <= k < |t.attempts| ==> u.attempts[k].stdoutLog == t.attempts[k].stdoutLog)
      && (forall k :: |t.attempts| <= k < |u.attempts| && u.attempts[k].stdoutLog.Some? ==>
            u.state.Running? && u.stdoutLog == u.attempts[k].stdoutLog && k + 1 == u.attemptsStarted)
      && (u.state.Running? ==> u.attemptsStarted == |t.attempts| + 1 && u.stdoutLog.Some?)
  {
    if t.def.peer.None? {
      var prompt := LaunchPrompt(t.def.prompt, outputs, obs.read(i));
      if prompt.Ok? {
        StartKeeps(t, i, obs.launch(i, prompt.value), obs.launchClock(i));
      }
    }
  }

  lemma {:induction false} RunningIsLogged(ts: seq<TaskRun>, path: LogPath, w: Writer)
    requires AllBooks(ts) && w in RunningOn(ts, path)
    ensures LoggedTo(ts, w, path) && ts[w.task].state.Running?
  {
    var j: nat :| j < |ts| && ts[j].state.Running? && ts[j].stdoutLog == Some(path) && w == Writer(j, ts[j].attemptsStarted);
    assert Bookkeeping(ts[j]);
  }

  /** After the launch, an attempt logs where it did, and the new one to its own log. */
  lemma {:induction false} LaunchLoggedTo(d: Disk, i: nat, outputs: map<string, LogPath>, obs: Observation, w: Writer, path: LogPath)
    requires i < |d.tasks| && AllBooks(d.tasks) && Queued(d.tasks[i].state)
    ensures var e := LaunchOn(d, i, outputs, obs);
      LoggedTo(e.tasks, w, path) <==>
        LoggedTo(d.tasks, w, path)
        || (e.tasks[i].state.Running? && w == Writer(i, e.tasks[i].attemptsStarted) && e.tasks[i].stdoutLog == Some(path))
  {
    if w.task == i {
      LaunchLogs(d.tasks[i], i, outputs, obs);
    }
  }

  /** The attempts that log somewhere after a launch that started one: those before, and the new one. */
  ghost predicate OneMoreLogged(ts: seq<TaskRun>, us: seq<TaskRun>, who: Writer, path: LogPath) {
    forall w: Writer, p :: LoggedTo(us, w, p) <==> (LoggedTo(ts, w, p) || (w == who && p == path))
  }

  lemma {:induction false} LaunchOnKeeps(d: Disk, i: nat, outputs: map<string, LogPath>, obs: Observation)
    requires DiskOk(d) && i < |d.tasks| && Queued(d.tasks[i].state)
    ensures DiskOk(LaunchOn(d, i, outputs, obs))
  {
    var e := LaunchOn(d, i, outputs, obs);
    LaunchLogs(d.tasks[i], i, outputs, obs);
    LaunchedBooks(d, i, outputs, obs);
    forall w: Writer, path
      ensures LoggedTo(e.tasks, w, path) <==> (LoggedTo(d.tasks, w, path)
        || (e.tasks[i].state.Running? && w == Writer(i, e.tasks[i].attemptsStarted) && e.tasks[i].stdoutLog == Some(path)))
    {
      LaunchLoggedTo(d, i, outputs, obs, w, path);
    }
    if e.tasks[i].state.Running? {
      StartedKeeps(d, e, Writer(i, e.tasks[i].attemptsStarted), e.tasks[i].stdoutLog.value);
    } else {
      SameLogsKeep(d, e.tasks);
    }
  }

  lemma {:induction false} LaunchedBooks(d: Disk, i: nat, outputs: map<string, LogPath>, obs: Observation)
    requires AllBooks(d.tasks) && i < |d.tasks| && Queued(d.tasks[i].state)
    ensures AllBooks(LaunchOn(d, i, outputs, obs).tasks)
  {
    LaunchLogs(d.tasks[i], i, outputs, obs);
  }

  /** A launch that started an attempt adds it everywhere. */
  lemma {:induction false} StartedKeeps(d: Disk, e: Disk, who: Writer, path: LogPath)
    requires DiskOk(d) && AllBooks(e.tasks) && OneMoreLogged(d.tasks, e.tasks, who, path) && who.attempt > 0
    requires who.task < |d.tasks| && who.attempt == |d.tasks[who.task].attempts| + 1
    requires var others := RunningOn(d.tasks, path);
      e.writers == d.writers[path := {who} + others] && e.launches == d.launches + [Launch(who, path, others)]
    ensures DiskOk(e)
  {
    var others := RunningOn(d.tasks, path);
    forall w: Writer | w in others ensures LoggedTo(d.tasks, w, path) && w != who {
      RunningIsLogged(d.tasks, path, w);
    }
    assert LoggedTo(e.tasks, who, path);
    assert forall p :: !LoggedTo(d.tasks, who, p);
    StartedWriters(d, e, path, {who} + others);
    StartedFollows(d, e, Launch(who, path, others));
    StartedLaunches(d, e, Launch(who, path, others));
  }

  lemma {:induction false} LastOnAppend(launches: seq<Launch>, l: Launch, path: LogPath)
    ensures LastOn(launches + [l], path) == if l.path == path then Some(|launches|) else LastOn(launches, path)
  {
    assert (launches + [l])[..|launches|] == launches;
  }

  lemma {:induction false} StartedFollows(d: Disk, e: Disk, l: Launch)
    requires AllFollow(d)
    requires e.writers == d.writers[l.path := {l.who} + l.others] && e.launches == d.launches + [l]
    ensures AllFollow(e)
  {
    forall path ensures FollowsLaunches(e, path) {
      assert FollowsLaunches(d, path);
      LastOnAppend(d.launches, l, path);
    }
  }

  lemma {:induction false} StartedLaunches(d: Disk, e: Disk, l: Launch)
    requires e.launches == d.launches + [l] && LaunchOk(e.tasks, l)
    requires LaunchesOk(d.tasks, d.launches)
    requires forall w: Writer, p :: LoggedTo(d.tasks, w, p) ==> LoggedTo(e.tasks, w, p) && w != l.who
    ensures LaunchesOk(e.tasks, e.launches)
  {
    forall x | 0 <= x < |e.launches|
      ensures LaunchOk(e.tasks, e.launches[x]) && (x < |d.launches| ==> e.launches[x].who != l.who)
    {
      if x < |d.launches| {
        assert LaunchOk(d.tasks, d.launches[x]);
      }
    }
  }

  lemma {:induction false} StartedWriters(d: Disk, e: Disk, path: LogPath, writers: set<Writer>)
    requires WritersOk(d.tasks, d.writers) && e.writers == d.writers[path := writers] && writers != {}
    requires forall w: Writer, p :: LoggedTo(d.tasks, w, p) ==> LoggedTo(e.tasks, w, p)
    requires forall w: Writer, p :: LoggedTo(e.tasks, w, p) ==> LoggedTo(d.tasks, w, p) || p == path
    requires forall w: Writer :: w in writers ==> LoggedTo(e.tasks, w, path)
    ensures WritersOk(e.tasks, e.writers)
  {}

  // ---------------------------------------------------------------- so do passes, iterations and runs

  /** One turn of the loop: it stops, passes over the task, or launches it and stops or goes on. */
  lemma {:induction false} LaunchDiskTurn(d: Disk, i: nat, n: nat, running: nat, snap: Snapshot, obs: Observation)
    requires i < n <= |d.tasks|
    ensures var f := LaunchDiskUpto(d, i, n, running, snap, obs);
      f == d || f == LaunchDiskUpto(d, i + 1, n, running, snap, obs)
      || (Ready(d.tasks[i], i, snap, obs) && (snap.parallel || running == 0)
          && var e := LaunchOn(d, i, snap.outputs, obs);
             var running' := if e.tasks[i].state.Running? then running + 1 else running;
             f == e || f == LaunchDiskUpto(e, i + 1, n, running', snap, obs))
  {}

  lemma {:induction false} LaunchDiskKeeps(d: Disk, i: nat, n: nat, running: nat, snap: Snapshot, obs: Observation)
    requires DiskOk(d) && i <= n <= |d.tasks|
    ensures DiskOk(LaunchDiskUpto(d, i, n, running, snap, obs))
    decreases n - i
  {
    if i < n {
      LaunchDiskTurn(d, i, n, running, snap, obs);
      LaunchDiskKeeps(d, i + 1, n, running, snap, obs);
      if Ready(d.tasks[i], i, snap, obs) {
        var e := LaunchOn(d, i, snap.outputs, obs);
        LaunchOnKeeps(d, i, snap.outputs, obs);
        LaunchDiskKeeps(e, i + 1, n, if e.tasks[i].state.Running? then running + 1 else running, snap, obs);
      }
    }
  }

  lemma {:induction false} InvBooks(file: TaskFile, ts: seq<TaskRun>)
    requires Inv(file, ts)
    ensures AllBooks(ts)
  {
    forall i | 0 <= i < |ts| ensures Bookkeeping(ts[i]) {
      assert RecordOk(file, ts, i);
    }
  }

  lemma {:induction false} DiskBeforeKeeps(file: TaskFile, d: Disk, parallel: bool, obs: Observation, c: nat)
    requires Inv(file, d.tasks) && DiskOk(d) && c <= |d.tasks|
    ensures DiskOk(DiskBefore(d, parallel, obs, c)) && Inv(file, DiskBefore(d, parallel, obs, c).tasks)
    ensures AllEvolve(Swept(d.tasks, obs), DiskBefore(d, parallel, obs, c).tasks)
  {
    var s := SweptDisk(d, obs);
    SweepKeeps(file, d.tasks, obs);
    InvBooks(file, s.tasks);
    SweepSameLogs(d.tasks, obs);
    SameLogsKeep(d, s.tasks);
    LaunchDiskKeeps(s, 0, c, CountRunning(s.tasks), SnapshotOf(s.tasks, parallel), obs);
    LaunchDiskTasks(s, 0, c, CountRunning(s.tasks), SnapshotOf(s.tasks, parallel), obs);
    LaunchingKeeps(file, s.tasks, parallel, obs, c);
  }

  lemma {:induction false} DiskIterationKeeps(file: TaskFile, d: Disk, parallel: bool, obs: Observation)
    requires Inv(file, d.tasks) && DiskOk(d)
    ensures DiskOk(DiskIteration(d, parallel, obs)) && Inv(file, DiskIteration(d, parallel, obs).tasks)
  {
    var e := DiskBefore(d, parallel, obs, |d.tasks|);
    DiskBeforeKeeps(file, d, parallel, obs, |d.tasks|);
    PollPassKeeps(file, e.tasks, obs);
    InvBooks(file, Polled(e.tasks, obs));
    PollSameLogs(e.tasks, obs);
    SameLogsKeep(e, Polled(e.tasks, obs));
  }

  lemma {:induction false} LeadsKeeps(file: TaskFile, d: Disk, parallel: bool, script: seq<Observation>, e: Disk)
    requires Inv(file, d.tasks) && DiskOk(d) && Leads(d, parallel, script, e)
    ensures Inv(file, e.tasks) && DiskOk(e)
    decreases |script|
  {
    if script != [] {
      DiskIterationKeeps(file, d, parallel, script[0]);
      LeadsKeeps(file, DiskIteration(d, parallel, script[0]), parallel, script[1..], e);
    }
  }

  lemma {:induction false} InitialDiskOk(file: TaskFile)
    ensures Inv(file, InitialDisk(file).tasks) && DiskOk(InitialDisk(file))
  {
    InitialInv(file);
    InvBooks(file, InitialRuns(file));
    assert forall w: Writer, path :: !LoggedTo(InitialRuns(file), w, path);
  }

  // ---------------------------------------------------------------- what a launch records

  /** The attempt is over. */
  ghost predicate Over(ts: seq<TaskRun>, w: Writer) {
    && w.task < |ts| && 0 < w.attempt <= |ts[w.task].attempts|
    && ts[w.task].attempts[w.attempt - 1].outcome.Some?
  }

  /** The attempts running on a file are those that log there and are not over. */
  lemma {:induction false} RunningOnIff(ts: seq<TaskRun>, path: LogPath, w: Writer)
    requires AllBooks(ts)
    ensures w in RunningOn(ts, path) <==> LoggedTo(ts, w, path) && !Over(ts, w)
  {
    if w in RunningOn(ts, path) {
      RunningIsLogged(ts, path, w);
    }
    if LoggedTo(ts, w, path) {
      var t := ts[w.task];
      assert Bookkeeping(t);
      assert AttemptOk(t.attempts[w.attempt - 1], w.attempt, t.state.Running? && w.attempt == |t.attempts|, t.def.name);
    }
  }

  /** No file is opened, or exactly this one, with these other attempts not yet over on it. */
  ghost predicate Opened(d: Disk, e: Disk, path: LogPath, l: Launch) {
    && e.launches == d.launches + [l] && l.path == path
    && e.writers == d.writers[path := {l.who} + l.others]
    && forall w: Writer :: w in l.others <==> LoggedTo(d.tasks, w, path) && !Over(d.tasks, w)
  }

  /**
   A launch that starts an attempt truncates that attempt's file, and leaves it to the new attempt
   and those on the file that are not over; any other launch leaves the files alone.
   */
  lemma {:induction false} LaunchOpens(d: Disk, i: nat, outputs: map<string, LogPath>, obs: Observation)
    requires AllBooks(d.tasks) && i < |d.tasks| && Queued(d.tasks[i].state)
    ensures var e := LaunchOn(d, i, outputs, obs);
      if e.tasks[i].state.Running? then
        var n, path := |d.tasks[i].attempts| + 1, LogName(Slug(d.tasks[i].def.name), |d.tasks[i].attempts| + 1);
        && |e.launches| > 0 && e.launches[|e.launches| - 1].who == Writer(i, n)
        && Opened(d, e, path, e.launches[|e.launches| - 1])
      else e.launches == d.launches && e.writers == d.writers
  {
    LaunchLogs(d.tasks[i], i, outputs, obs);
    var path := LogName(Slug(d.tasks[i].def.name), |d.tasks[i].attempts| + 1);
    forall w: Writer ensures w in RunningOn(d.tasks, path) <==> LoggedTo(d.tasks, w, path) && !Over(d.tasks, w) {
      RunningOnIff(d.tasks, path, w);
    }
  }

  // ---------------------------------------------------------------- who has a log alone

  ghost predicate SoleWriter(d: Disk, path: LogPath, w: Writer) {
    path in d.writers && d.writers[path] == {w}
  }

  /** The attempt was launched with no other one running on the file, and none was launched on it since. */
  ghost predicate AloneSince(launches: seq<Launch>, w: Writer, path: LogPath) {
    exists x :: 0 <= x < |launches| && launches[x] == Launch(w, path, {}) && LastOn(launches, path) == Some(x)
  }

  lemma {:induction false} SoleWriterIff(d: Disk, path: LogPath, w: Writer)
    requires DiskOk(d)
    ensures SoleWriter(d, path, w) <==> AloneSince(d.launches, w, path)
  {
    assert FollowsLaunches(d, path);
    var last := LastOn(d.launches, path);
    if last.Some? {
      var l := d.launches[last.value];
      assert LaunchOk(d.tasks, l);
      assert l.who in {l.who} + l.others;
      if SoleWriter(d, path, w) {
        assert l.others == {};
        assert l == Launch(w, path, {});
      }
    }
  }

  // ---------------------------------------------------------------- whose output a prompt quotes

  /**
   A log that one attempt has had alone since it was truncated holds what the attempt printed,
   once it is over. Any other log may hold anything.
   */
  ghost predicate LogsHold(d: Disk, read: LogPath -> Option<string>, printed: Writer -> string) {
    forall path, w: Writer :: SoleWriter(d, path, w) && Over(d.tasks, w) ==> read(path) == Some(printed(w))
  }

  /** The placeholder is replaced by what is captured of the given text, or panics where that cannot be cut. */
  ghost predicate Quotes(outputs: map<string, LogPath>, read: LogPath -> Option<string>, raw: string, text: string) {
    if CutsCharacter(text, 32768) then exists name :: Fails(raw, outputs, read, CapturePanicked(name))
    else exists output :: Inserts(raw, outputs, read, output) && Captured(text, output)
  }

  /** The placeholder asks for the stdout of a task that has a log, which is this file. */
  ghost predicate AsksFor(outputs: map<string, LogPath>, raw: string, path: LogPath) {
    match Reference(raw)
    case None => false
    case Some((name, field)) => field == "stdout" && name in outputs && outputs[name] == path
  }

  lemma {:induction false} QuotesWhatWasRead(
    outputs: map<string, LogPath>, read: LogPath -> Option<string>, raw: string, path: LogPath, text: string)
    requires AsksFor(outputs, raw, path) && read(path) == Some(text)
    ensures Quotes(outputs, read, raw, text)
  {
    var name := Reference(raw).value.0;
    ReferenceSpelled(raw, name, "stdout");
    assert AsksForLog(raw, outputs, read, name, text);
    if CutsCharacter(text, 32768) {
      assert Fails(raw, outputs, read, CapturePanicked(name));
    } else {
      CapPanicsIff(text);
      CapturedIff(text, Trim(Cap(text).value));
      assert Inserts(raw, outputs, read, Trim(Cap(text).value));
    }
  }

  /** No placeholder quotes both of two short texts. */
  lemma {:induction false} QuotesOne(outputs: map<string, LogPath>, read: LogPath -> Option<string>, raw: string)
    ensures !Quotes(outputs, read, raw, "x") || !Quotes(outputs, read, raw, "y")
  {
    OneLetterCaptured("x");
    OneLetterCaptured("y");
    forall p, q | Inserts(raw, outputs, read, p) && Inserts(raw, outputs, read, q) ensures p == q {
      ResolvesIff(raw, outputs, read, p);
      ResolvesIff(raw, outputs, read, q);
    }
  }

  /** Whatever the attempts printed and the other logs hold, the placeholder is replaced by what this attempt printed. */
  ghost predicate SureToQuote(d: Disk, outputs: map<string, LogPath>, raw: string, w: Writer) {
    forall read: LogPath -> Option<string>, printed: Writer -> string ::
      LogsHold(d, read, printed) ==> Quotes(outputs, read, raw, printed(w))
  }

  lemma {:induction false} SoleIsSure(d: Disk, outputs: map<string, LogPath>, raw: string, path: LogPath, w: Writer)
    requires AsksFor(outputs, raw, path) && SoleWriter(d, path, w) && Over(d.tasks, w)
    ensures SureToQuote(d, outputs, raw, w)
  {
    forall read: LogPath -> Option<string>, printed: Writer -> string | LogsHold(d, read, printed)
      ensures Quotes(outputs, read, raw, printed(w))
    {
      assert read(path) == Some(printed(w));
      QuotesWhatWasRead(outputs, read, raw, path, printed(w));
    }
  }

  /** Every attempt but one printed `y`. */
  function OneDiffers(w: Writer): Writer -> string {
    (v: Writer) => if v == w then "x" else "y"
  }

  lemma {:induction false} OneLetterCaptured(text: string)
    requires text == "x" || text == "y"
    ensures !CutsCharacter(text, 32768) && forall output :: Captured(text, output) ==> output == text
  {
    AsciiByteLen(text);
    TrimIsIdentity(text);
  }

  function AllHold(text: string): LogPath -> Option<string> {
    _ => Some(text)
  }

  lemma {:induction false} OthersPrintedThat(d: Disk, path: LogPath, w: Writer)
    requires WritersOk(d.tasks, d.writers) && LoggedTo(d.tasks, w, path) && !SoleWriter(d, path, w)
    ensures LogsHold(d, AllHold("y"), OneDiffers(w))
  {
    forall p, v: Writer | SoleWriter(d, p, v) && Over(d.tasks, v) ensures OneDiffers(w)(v) == "y" {
      assert v in d.writers[p];
      assert LoggedTo(d.tasks, v, p);
    }
  }

  /** If the attempt does not have its log alone, the log can hold what others printed. */
  lemma {:induction false} NotSoleMisquotes(d: Disk, outputs: map<string, LogPath>, raw: string, path: LogPath, w: Writer)
    returns (read: LogPath -> Option<string>, printed: Writer -> string)
    requires DiskOk(d) && AsksFor(outputs, raw, path) && LoggedTo(d.tasks, w, path) && !SoleWriter(d, path, w)
    ensures LogsHold(d, read, printed) && !Quotes(outputs, read, raw, printed(w))
  {
    read, printed := AllHold("y"), OneDiffers(w);
    OthersPrintedThat(d, path, w);
    QuotesWhatWasRead(outputs, read, raw, path, "y");
    QuotesOne(outputs, read, raw);
  }

  lemma NotSure(
    d: Disk, outputs: map<string, LogPath>, read: LogPath -> Option<string>, printed: Writer -> string, raw: string, w: Writer)
    requires LogsHold(d, read, printed) && !Quotes(outputs, read, raw, printed(w))
    ensures !SureToQuote(d, outputs, raw, w)
  {}

  lemma {:induction false} SureIff(d: Disk, outputs: map<string, LogPath>, raw: string, path: LogPath, w: Writer)
    requires DiskOk(d) && AsksFor(outputs, raw, path) && LoggedTo(d.tasks, w, path) && Over(d.tasks, w)
    ensures SureToQuote(d, outputs, raw, w) <==> AloneSince(d.launches, w, path)
  {
    SoleWriterIff(d, path, w);
    if SoleWriter(d, path, w) {
      SoleIsSure(d, outputs, raw, path, w);
    } else {
      var read, printed := NotSoleMisquotes(d, outputs, raw, path, w);
      NotSure(d, outputs, read, printed, raw, w);
    }
  }

  /** A prompt with what is captured of the printed text in the place of its k-th placeholder. */
  ghost predicate HasPrinted(prompt: string, k: nat, printed: string, text: string) {
    exists outs :: Embeds(prompt, k, printed, outs) && text == Weave(Literals(Parse(prompt)), outs)
  }

  ghost predicate Embeds(prompt: string, k: nat, printed: string, outs: seq<string>) {
    k < |outs| == |Holes(Parse(prompt))| && Captured(printed, outs[k])
  }

  /** A prompt that expands, and is sure to quote an attempt at a placeholder, expands to such a text. */
  lemma {:induction false} SureExpansion(
    d: Disk, outputs: map<string, LogPath>, prompt: string, k: nat, w: Writer,
    read: LogPath -> Option<string>, printed: Writer -> string, text: string)
    requires k < |Holes(Parse(prompt))| && SureToQuote(d, outputs, Holes(Parse(prompt))[k], w)
    requires LogsHold(d, read, printed) && Expands(prompt, outputs, read, text)
    ensures HasPrinted(prompt, k, printed(w), text)
  {
    var holes := Holes(Parse(prompt));
    var outs :| AllInsert(holes, outputs, read, outs) && text == Weave(Literals(Parse(prompt)), outs);
    ResolvesIff(holes[k], outputs, read, outs[k]);
    assert Quotes(outputs, read, holes[k], printed(w));
    if CutsCharacter(printed(w), 32768) {
      var name :| Fails(holes[k], outputs, read, CapturePanicked(name));
      FailsIff(holes[k], outputs, read, CapturePanicked(name));
    } else {
      var output :| Inserts(holes[k], outputs, read, output) && Captured(printed(w), output);
      ResolvesIff(holes[k], outputs, read, output);
      assert Embeds(prompt, k, printed(w), outs);
    }
  }

  /**
   So is the text that its process is launched with: whatever the attempts printed and the other
   logs hold, launching the task adds an attempt only with such a text, and the attempt runs iff
   launching a process with it succeeds.
   */
  lemma {:induction false} SureLaunch(
    d: Disk, outputs: map<string, LogPath>, t: TaskRun, i: nat, k: nat, w: Writer,
    obs: Observation, printed: Writer -> string)
    returns (text: string)
    requires Queued(t.state) && k < |Holes(Parse(t.def.prompt))| && SureToQuote(d, outputs, Holes(Parse(t.def.prompt))[k], w)
    requires LogsHold(d, obs.read(i), printed) && |LaunchOne(t, i, outputs, obs).attempts| > |t.attempts|
    ensures HasPrinted(t.def.prompt, k, printed(w), text)
    ensures LaunchOne(t, i, outputs, obs).state.Running? <==> obs.launch(i, text).Launched?
  {
    text := AddedWith(t, i, outputs, obs);
    SureExpansion(d, outputs, t.def.prompt, k, w, obs.read(i), printed, text);
  }

  // ---------------------------------------------------------------- at a launch

  /**
   In a run of the file, the launch loop of the iteration that `d` starts gets to task `c`, which
   is ready: `s` are the records before the loop, `e` is the disk when it gets there (or where it
   stopped before).
   */
  ghost predicate AtLaunch(
    file: TaskFile, parallel: bool, script: seq<Observation>, d: Disk, obs: Observation, c: nat, s: seq<TaskRun>, e: Disk)
  {
    && Leads(InitialDisk(file), parallel, script, d) && c < |d.tasks|
    && s == Swept(d.tasks, obs) && e == DiskBefore(d, parallel, obs, c)
    && Ready(s[c], c, SnapshotOf(s, parallel), obs)
  }

  lemma {:induction false} AtLaunchKeeps(
    file: TaskFile, parallel: bool, script: seq<Observation>, d: Disk, obs: Observation, c: nat, s: seq<TaskRun>, e: Disk)
    requires AtLaunch(file, parallel, script, d, obs, c, s, e)
    ensures Inv(file, s) && Inv(file, e.tasks) && DiskOk(e) && AllEvolve(s, e.tasks)
  {
    InitialDiskOk(file);
    LeadsKeeps(file, InitialDisk(file), parallel, script, d);
    SweepKeeps(file, d.tasks, obs);
    DiskBeforeKeeps(file, d, parallel, obs, c);
  }

  /**
   The task that a dotted placeholder of a ready task names: its last attempt is over, and logged to
   the file asked for.
   */
  lemma {:induction false} NamedTask(file: TaskFile, ts: seq<TaskRun>, i: nat, raw: string) returns (a: nat)
    requires ValidFile(file) && Inv(file, ts) && i < |ts| && DepsIn(ts[i], CompletedNames(ts))
    requires raw in Holes(Parse(ts[i].def.prompt)) && Reference(raw).Some?
    ensures a < |ts| && ts[a].def.name == Reference(raw).value.0 && ts[a].state.Completed?
    ensures var w := Writer(a, ts[a].attemptsStarted);
      Over(ts, w) && ts[a].stdoutLog.Some? && LoggedTo(ts, w, ts[a].stdoutLog.value)
      && AsksFor(CompletedOutputs(ts), raw, ts[a].stdoutLog.value)
  {
    HoleNamesDependency(file, ts, i, raw);
    a := CompletedHasOutput(file, ts, Reference(raw).value.0);
    assert RecordOk(file, ts, a);
  }

  lemma {:induction false} StaysOver(ts: seq<TaskRun>, us: seq<TaskRun>, w: Writer, path: LogPath)
    requires AllEvolve(ts, us) && w.task < |ts| && Terminal(ts[w.task].state) && Over(ts, w) && LoggedTo(ts, w, path)
    ensures Over(us, w) && LoggedTo(us, w, path)
  {
    assert Evolves(ts[w.task], us[w.task]);
  }

  /**
   When a task of a valid file is launched, a placeholder is sure to be replaced by what the last
   attempt of the task it names printed, iff no other attempt was running on that attempt's
   file when it was launched, and none has been launched on it since.
   */
  lemma {:induction false} OwnOutputIff(
    file: TaskFile, parallel: bool, script: seq<Observation>, d: Disk, obs: Observation, c: nat,
    s: seq<TaskRun>, e: Disk, raw: string)
    returns (a: nat)
    requires ValidFile(file) && AtLaunch(file, parallel, script, d, obs, c, s, e)
    requires raw in Holes(Parse(s[c].def.prompt)) && Reference(raw).Some?
    ensures a < |s| && s[a].def.name == Reference(raw).value.0 && s[a].state.Completed? && s[a].stdoutLog.Some?
    ensures var w := Writer(a, s[a].attemptsStarted);
      SureToQuote(e, CompletedOutputs(s), raw, w) <==> AloneSince(e.launches, w, s[a].stdoutLog.value)
  {
    AtLaunchKeeps(file, parallel, script, d, obs, c, s, e);
    a := NamedTask(file, s, c, raw);
    var w := Writer(a, s[a].attemptsStarted);
    StaysOver(s, e.tasks, w, s[a].stdoutLog.value);
    SureIff(e, CompletedOutputs(s), raw, s[a].stdoutLog.value, w);
  }

  /** It is always so if no other launchable task has the slug of the task named. */
  lemma {:induction false} AloneIsSure(
    file: TaskFile, parallel: bool, script: seq<Observation>, d: Disk, obs: Observation, c: nat,
    s: seq<TaskRun>, e: Disk, raw: string)
    returns (a: nat)
    requires ValidFile(file) && AtLaunch(file, parallel, script, d, obs, c, s, e)
    requires raw in Holes(Parse(s[c].def.prompt)) && Reference(raw).Some?
    ensures a < |s| == |file.tasks| && s[a].def.name == Reference(raw).value.0
    ensures SlugAlone(file, a) ==> SureToQuote(e, CompletedOutputs(s), raw, Writer(a, s[a].attemptsStarted))
  {
    AtLaunchKeeps(file, parallel, script, d, obs, c, s, e);
    a := NamedTask(file, s, c, raw);
    var w, path := Writer(a, s[a].attemptsStarted), s[a].stdoutLog.value;
    StaysOver(s, e.tasks, w, path);
    if SlugAlone(file, a) {
      SlugAloneWrites(file, e, w, path);
      SoleIsSure(e, CompletedOutputs(s), raw, path, w);
    }
  }

  lemma {:induction false} SlugAloneWrites(file: TaskFile, e: Disk, w: Writer, path: LogPath)
    requires ValidFile(file) && Inv(file, e.tasks) && WritersOk(e.tasks, e.writers)
    requires LoggedTo(e.tasks, w, path) && SlugAlone(file, w.task)
    ensures SoleWriter(e, path, w)
  {
    forall v: Writer | v in e.writers[path] ensures v == w {
      OneOwner(file, e.tasks, w, v, path);
    }
    var v :| v in e.writers[path];
  }

  lemma {:induction false} OneOwner(file: TaskFile, ts: seq<TaskRun>, w: Writer, v: Writer, path: LogPath)
    requires ValidFile(file) && Inv(file, ts) && LoggedTo(ts, w, path) && LoggedTo(ts, v, path) && SlugAlone(file, w.task)
    ensures v == w
  {
    OnlyOwnLog(file, ts, w.task, w.attempt - 1, v.task, v.attempt - 1);
  }

  // ---------------------------------------------------------------- sequential mode

  ghost predicate NeverBeside(launches: seq<Launch>) {
    forall x :: 0 <= x < |launches| ==> launches[x].others == {}
  }

  lemma {:induction false} NothingRunsNowhere(ts: seq<TaskRun>, path: LogPath)
    requires CountRunning(ts) == 0
    ensures RunningOn(ts, path) == {}
  {
    if j: nat :| j < |ts| && ts[j].state.Running? {
      CountOne(ts, j);
    }
  }

  lemma {:induction false} BesideNothing(d: Disk, i: nat, n: nat, running: nat, snap: Snapshot, obs: Observation)
    requires i <= n <= |d.tasks| && !snap.parallel && running == CountRunning(d.tasks) && NeverBeside(d.launches)
    ensures NeverBeside(LaunchDiskUpto(d, i, n, running, snap, obs).launches)
    decreases n - i
  {
    if i < n {
      LaunchDiskTurn(d, i, n, running, snap, obs);
      BesideNothing(d, i + 1, n, running, snap, obs);
      if Ready(d.tasks[i], i, snap, obs) && running == 0 {
        var e := LaunchOn(d, i, snap.outputs, obs);
        NothingBesideIt(d, i, snap.outputs, obs);
        BesideNothing(e, i + 1, n, if e.tasks[i].state.Running? then running + 1 else running, snap, obs);
      }
    }
  }

  lemma {:induction false} NothingBesideIt(d: Disk, i: nat, outputs: map<string, LogPath>, obs: Observation)
    requires i < |d.tasks| && Queued(d.tasks[i].state) && CountRunning(d.tasks) == 0 && NeverBeside(d.launches)
    ensures var e := LaunchOn(d, i, outputs, obs);
      NeverBeside(e.launches) && CountRunning(e.tasks) == if e.tasks[i].state.Running? then 1 else 0
  {
    var t := LaunchOne(d.tasks[i], i, outputs, obs);
    CountUpdate(d.tasks, i, t);
    if t.stdoutLog.Some? {
      NothingRunsNowhere(d.tasks, t.stdoutLog.value);
    }
  }

  lemma {:induction false} SequentialBeside(d: Disk, obs: Observation, c: nat)
    requires NeverBeside(d.launches) && c <= |d.tasks|
    ensures NeverBeside(DiskBefore(d, false, obs, c).launches)
  {
    var s := SweptDisk(d, obs);
    BesideNothing(s, 0, c, CountRunning(s.tasks), SnapshotOf(s.tasks, false), obs);
  }

  lemma {:induction false} SequentialLeads(d: Disk, script: seq<Observation>, e: Disk)
    requires NeverBeside(d.launches) && Leads(d, false, script, e)
    ensures NeverBeside(e.launches)
    decreases |script|
  {
    if script != [] {
      SequentialBeside(d, script[0], |d.tasks|);
      SequentialLeads(DiskIteration(d, false, script[0]), script[1..], e);
    }
  }

  /** In sequential mode no attempt is ever launched beside another. */
  lemma {:induction false} SequentialNeverBeside(
    file: TaskFile, script: seq<Observation>, d: Disk, obs: Observation, c: nat, s: seq<TaskRun>, e: Disk)
    requires AtLaunch(file, false, script, d, obs, c, s, e)
    ensures NeverBeside(e.launches)
  {
    SequentialLeads(InitialDisk(file), script, d);
    SequentialBeside(d, obs, c);
  }

  lemma {:induction false} QuietMeansOver(ts: seq<TaskRun>, w: Writer, path: LogPath)
    requires AllBooks(ts) && CountRunning(ts) == 0 && LoggedTo(ts, w, path)
    ensures Over(ts, w)
  {
    if ts[w.task].state.Running? {
      CountOne(ts, w.task);
    }
    assert Bookkeeping(ts[w.task]);
    var a := ts[w.task].attempts[w.attempt - 1];
    assert AttemptOk(a, w.attempt, false, ts[w.task].def.name);
  }

  /**
   In sequential mode a placeholder is always sure to be replaced by what some attempt printed:
   the last one launched on the file that the task it names logged to. (Nothing runs when a
   task is launched in this mode.)
   */
  lemma {:induction false} SequentialQuotesLast(
    file: TaskFile, script: seq<Observation>, d: Disk, obs: Observation, c: nat,
    s: seq<TaskRun>, e: Disk, raw: string)
    returns (a: nat, x: nat)
    requires ValidFile(file) && AtLaunch(file, false, script, d, obs, c, s, e) && CountRunning(e.tasks) == 0
    requires raw in Holes(Parse(s[c].def.prompt)) && Reference(raw).Some?
    ensures a < |s| && s[a].def.name == Reference(raw).value.0 && s[a].state.Completed? && s[a].stdoutLog.Some?
    ensures LastOn(e.launches, s[a].stdoutLog.value) == Some(x) && x < |e.launches|
    ensures SureToQuote(e, CompletedOutputs(s), raw, e.launches[x].who)
  {
    AtLaunchKeeps(file, false, script, d, obs, c, s, e);
    a := NamedTask(file, s, c, raw);
    var w, path := Writer(a, s[a].attemptsStarted), s[a].stdoutLog.value;
    StaysOver(s, e.tasks, w, path);
    SequentialNeverBeside(file, script, d, obs, c, s, e);
    x := LastIsSole(e, w, path);
    QuietMeansOver(e.tasks, e.launches[x].who, path);
    SoleIsSure(e, CompletedOutputs(s), raw, path, e.launches[x].who);
  }

  lemma {:induction false} LastIsSole(e: Disk, w: Writer, path: LogPath) returns (x: nat)
    requires DiskOk(e) && NeverBeside(e.launches) && LoggedTo(e.tasks, w, path)
    ensures x < |e.launches| && LastOn(e.launches, path) == Some(x)
    ensures LoggedTo(e.tasks, e.launches[x].who, path) && SoleWriter(e, path, e.launches[x].who)
  {
    assert FollowsLaunches(e, path);
    x := LastOn(e.launches, path).value;
    assert LaunchOk(e.tasks, e.launches[x]);
  }
}
