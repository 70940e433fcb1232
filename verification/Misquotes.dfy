/** A valid file and a run of it in which a prompt is sure to quote the output of the wrong task. */
module Misquotes {
  import opened Options
  import opened Text
  import opened TaskGraph
  import opened Templates
  import opened TaskFiles
  import opened TaskRuns
  import opened RunInvariant
  import opened RunOutcome
  import opened SmoothRuns
  import opened LogFiles
  import opened LogContents

  // ---------------------------------------------------------------- one sequential iteration

  /** In sequential mode a running task stops the loop. */
  lemma {:induction false} StaysPut(d: Disk, i: nat, n: nat, running: nat, snap: Snapshot, obs: Observation)
    requires i <= n <= |d.tasks| && !snap.parallel && running > 0
    ensures LaunchDiskUpto(d, i, n, running, snap, obs) == d
    decreases n - i
  {
    if i < n && !Ready(d.tasks[i], i, snap, obs) {
      StaysPut(d, i + 1, n, running, snap, obs);
    }
  }

  lemma {:induction false} NoneReady(d: Disk, i: nat, n: nat, running: nat, snap: Snapshot, obs: Observation)
    requires i <= n <= |d.tasks| && forall k :: i <= k < n ==> !Ready(d.tasks[k], k, snap, obs)
    ensures LaunchDiskUpto(d, i, n, running, snap, obs) == d
    decreases n - i
  {
    if i < n {
      NoneReady(d, i + 1, n, running, snap, obs);
    }
  }

  /** Only the first ready task is launched. */
  lemma {:induction false} FirstReady(d: Disk, i: nat, n: nat, snap: Snapshot, obs: Observation, j: nat)
    requires i <= j < n <= |d.tasks| && !snap.parallel && Uncancelled(obs, |d.tasks|) && Ready(d.tasks[j], j, snap, obs)
    requires forall k :: i <= k < j ==> !Ready(d.tasks[k], k, snap, obs)
    requires LaunchOn(d, j, snap.outputs, obs).tasks[j].state.Running?
    ensures LaunchDiskUpto(d, i, n, 0, snap, obs) == LaunchOn(d, j, snap.outputs, obs)
    decreases n - i
  {
    if i < j {
      FirstReady(d, i + 1, n, snap, obs, j);
    } else {
      StaysPut(LaunchOn(d, j, snap.outputs, obs), j + 1, n, 1, snap, obs);
    }
  }

  /** Nothing runs, and nothing failed. */
  ghost predicate Calm(ts: seq<TaskRun>) {
    forall i :: 0 <= i < |ts| ==> !ts[i].state.Running? && !Doomed(ts[i].state)
  }

  lemma {:induction false} CalmSweep(ts: seq<TaskRun>, obs: Observation)
    requires Calm(ts) && Uncancelled(obs, |ts|)
    ensures Swept(ts, obs) == ts && !SomePanicked(ts)
  {
    assert DoomedNames(ts) == {};
    forall i | 0 <= i < |ts| ensures MarkOne(ts[i], DoomedNames(ts)) == ts[i] {
      NoneFailed(ts[i].def.dependsOn);
    }
  }

  lemma {:induction false} CalmCount(ts: seq<TaskRun>)
    requires Calm(ts)
    ensures CountRunning(ts) == 0
    decreases |ts|
  {
    if ts != [] {
      CalmCount(ts[..|ts| - 1]);
    }
  }

  /** A plain task that has not been launched yet. */
  ghost predicate Untouched(t: TaskRun) {
    Plain(t.def) && t.state.Pending? && t.nextRetryAt.None? && t.attemptsStarted == 0 && t.attempts == []
  }

  /** A task that completed in its first attempt. */
  ghost predicate DoneAtOnce(t: TaskRun, def: TaskDef) {
    t.def == def && t.state.Completed? && t.attemptsStarted == 1 && t.stdoutLog == Some(LogName(Slug(def.name), 1))
  }

  /** The launch of the first ready task, and nothing else. */
  lemma {:induction false} OneLaunch(d: Disk, k: nat, j: nat)
    requires Calm(d.tasks) && j < |d.tasks| && Untouched(d.tasks[j])
    requires forall i :: 0 <= i < j ==> !Queued(d.tasks[i].state)
    ensures var obs := Smooth(|d.tasks|, k, "");
      var e := DiskBefore(d, false, obs, |d.tasks|);
      e == LaunchOn(d, j, CompletedOutputs(d.tasks), obs) && e.tasks[j].state.Running?
  {
    var obs := Smooth(|d.tasks|, k, "");
    var snap := SnapshotOf(d.tasks, false);
    CalmSweep(d.tasks, obs);
    CalmCount(d.tasks);
    PlainLaunch(d.tasks[j], j, snap, obs);
    FirstReady(d, 0, |d.tasks|, snap, obs, j);
  }

  lemma {:induction false} LaunchedAndDone(t: TaskRun, j: nat, snap: Snapshot, obs: Observation)
    requires Untouched(t) && obs.launch(j, "").Launched? && obs.wait(j) == Exited(Some(0))
    ensures var u := LaunchOne(t, j, snap.outputs, obs);
      && u.state.Running? && u.attemptsStarted == 1 && u.stdoutLog == Some(LogName(Slug(t.def.name), 1))
      && DoneAtOnce(PollOne(u, j, obs), t.def)
  {
    PlainLaunch(t, j, snap, obs);
  }

  /** The disk after an iteration that ran task `j` to its end. */
  ghost predicate RanOne(d: Disk, e: Disk, j: nat)
    requires j < |d.tasks|
  {
    && |e.tasks| == |d.tasks| && DoneAtOnce(e.tasks[j], d.tasks[j].def)
    && (forall i :: 0 <= i < |d.tasks| && i != j ==> e.tasks[i] == d.tasks[i])
    && e.launches == d.launches + [Launch(Writer(j, 1), LogName(Slug(d.tasks[j].def.name), 1), {})]
  }

  lemma {:induction false} OneRuns(d: Disk, k: nat, j: nat)
    requires Calm(d.tasks) && j < |d.tasks| && Untouched(d.tasks[j])
    requires forall i :: 0 <= i < j ==> !Queued(d.tasks[i].state)
    ensures RanOne(d, DiskIteration(d, false, Smooth(|d.tasks|, k, "")), j)
  {
    var obs := Smooth(|d.tasks|, k, "");
    var snap := SnapshotOf(d.tasks, false);
    OneLaunch(d, k, j);
    LaunchedAndDone(d.tasks[j], j, snap, obs);
    var e := LaunchOn(d, j, snap.outputs, obs);
    assert RunningOn(d.tasks, LogName(Slug(d.tasks[j].def.name), 1)) == {};
    assert !SomePanicked(e.tasks);
    var us := Polled(e.tasks, obs);
    forall i | 0 <= i < |d.tasks| && i != j ensures us[i] == d.tasks[i] {
      assert e.tasks[i] == d.tasks[i];
    }
    assert us[j] == PollOne(e.tasks[j], j, obs);
  }

  lemma {:induction false} StillCalm(d: Disk, e: Disk, j: nat)
    requires Calm(d.tasks) && j < |d.tasks| && RanOne(d, e, j)
    ensures Calm(e.tasks)
  {}

  // ---------------------------------------------------------------- the run

  /** Two independent tasks with one slug, and a third that waits for both. */
  ghost predicate Trio(file: TaskFile) {
    && |file.tasks| == 3 && Plain(file.tasks[0]) && Plain(file.tasks[1])
    && Slug(file.tasks[0].name) == Slug(file.tasks[1].name)
    && file.tasks[2].dependsOn == [file.tasks[0].name, file.tasks[1].name]
  }

  /** The first two tasks are done, one after the other, and the third is waiting. */
  ghost predicate TwoDone(file: TaskFile, d: Disk)
    requires |file.tasks| == 3
  {
    var path := LogName(Slug(file.tasks[0].name), 1);
    && |d.tasks| == 3 && Calm(d.tasks)
    && DoneAtOnce(d.tasks[0], file.tasks[0]) && DoneAtOnce(d.tasks[1], file.tasks[1])
    && d.tasks[2] == NewRun(file, file.tasks[2])
    && d.launches == [Launch(Writer(0, 1), path, {}), Launch(Writer(1, 1), path, {})]
  }

  function TheScript(): seq<Observation> {
    [Smooth(3, 0, ""), Smooth(3, 1, "")]
  }

  lemma {:induction false} FirstIteration(file: TaskFile, d: Disk)
    requires Trio(file) && d == InitialDisk(file)
    ensures var e := DiskIteration(d, false, Smooth(3, 0, ""));
      && |d.tasks| == 3 && RanOne(d, e, 0) && Calm(e.tasks)
      && Untouched(e.tasks[1]) && !Queued(e.tasks[0].state)
      && e.tasks[1].def == file.tasks[1] && e.tasks[2] == NewRun(file, file.tasks[2])
  {
    assert forall i :: 0 <= i < 3 ==> d.tasks[i] == NewRun(file, file.tasks[i]);
    OneRuns(d, 0, 0);
    StillCalm(d, DiskIteration(d, false, Smooth(3, 0, "")), 0);
  }

  lemma {:induction false} TwoIterations(file: TaskFile) returns (d: Disk)
    requires Trio(file)
    ensures Leads(InitialDisk(file), false, TheScript(), d) && TwoDone(file, d)
  {
    var d0 := InitialDisk(file);
    FirstIteration(file, d0);
    var d1 := DiskIteration(d0, false, Smooth(3, 0, ""));
    OneRuns(d1, 1, 1);
    d := DiskIteration(d1, false, Smooth(3, 1, ""));
    StillCalm(d1, d, 1);
    BothRan(file, d0, d1, d);
    TwoLead(d0, d1, d);
  }

  lemma {:induction false} BothRan(file: TaskFile, d0: Disk, d1: Disk, d2: Disk)
    requires Trio(file) && |d0.tasks| == 3 && d0.launches == [] && d0.tasks[0].def == file.tasks[0]
    requires RanOne(d0, d1, 0) && d1.tasks[1].def == file.tasks[1] && d1.tasks[2] == NewRun(file, file.tasks[2])
    requires RanOne(d1, d2, 1) && Calm(d2.tasks)
    ensures TwoDone(file, d2)
  {
    assert d2.tasks[0] == d1.tasks[0] && d2.tasks[2] == d1.tasks[2];
  }

  lemma {:induction false} TwoLead(d0: Disk, d1: Disk, d2: Disk)
    requires d1 == DiskIteration(d0, false, Smooth(3, 0, "")) && d2 == DiskIteration(d1, false, Smooth(3, 1, ""))
    requires Calm(d1.tasks) && |d1.tasks| == 3 && d1.tasks[2].state.Pending?
    requires Calm(d2.tasks) && |d2.tasks| == 3 && d2.tasks[2].state.Pending?
    ensures Leads(d0, false, TheScript(), d2)
  {
    var script := TheScript();
    assert script[1..] == [script[1]] && script[1..][1..] == [];
    assert !Terminal(d1.tasks[2].state) && !Terminal(d2.tasks[2].state);
    CalmSweep(d1.tasks, Smooth(3, 1, ""));
    CalmSweep(d2.tasks, Smooth(3, 1, ""));
    assert Leads(d1, false, script[1..], d2);
  }

  lemma {:induction false} ThirdReady(file: TaskFile, d: Disk, obs: Observation)
    requires Trio(file) && TwoDone(file, d)
    ensures Ready(d.tasks[2], 2, SnapshotOf(d.tasks, false), obs)
  {
    CompletedIsNamed(d.tasks, 0);
    CompletedIsNamed(d.tasks, 1);
  }

  lemma {:induction false} LoopGetsToThird(file: TaskFile, d: Disk, obs: Observation)
    requires Trio(file) && TwoDone(file, d) && Uncancelled(obs, 3)
    ensures Swept(d.tasks, obs) == d.tasks && DiskBefore(d, false, obs, 2) == d && CountRunning(d.tasks) == 0
  {
    CalmSweep(d.tasks, obs);
    CalmCount(d.tasks);
    assert SweptDisk(d, obs) == d;
    NoneReady(d, 0, 2, 0, SnapshotOf(d.tasks, false), obs);
  }

  lemma {:induction false} ThirdIsNext(file: TaskFile, script: seq<Observation>, d: Disk, obs: Observation)
    requires Trio(file) && TwoDone(file, d) && Uncancelled(obs, 3)
    requires Leads(InitialDisk(file), false, script, d)
    ensures AtLaunch(file, false, script, d, obs, 2, d.tasks, d) && CountRunning(d.tasks) == 0
  {
    LoopGetsToThird(file, d, obs);
    ThirdReady(file, d, obs);
  }

  /**
   In sequential mode such a file has a run in which the third task is launched with a prompt
   that names the first one, and is sure to be given what the second one printed.
   */
  lemma {:induction false} OtherOutputQuoted(file: TaskFile, raw: string)
    returns (script: seq<Observation>, d: Disk, obs: Observation)
    requires Trio(file) && ValidFile(file) && raw in Holes(Parse(file.tasks[2].prompt))
    requires Reference(raw) == Some((file.tasks[0].name, "stdout"))
    ensures AtLaunch(file, false, script, d, obs, 2, d.tasks, d)
    ensures SureToQuote(d, CompletedOutputs(d.tasks), raw, Writer(1, 1))
  {
    script, obs := TheScript(), Smooth(3, 2, "");
    d := TwoIterations(file);
    ThirdQuotesSecond(file, script, d, obs, raw);
  }

  lemma {:induction false} ThirdQuotesSecond(file: TaskFile, script: seq<Observation>, d: Disk, obs: Observation, raw: string)
    requires Trio(file) && ValidFile(file) && raw in Holes(Parse(file.tasks[2].prompt))
    requires Reference(raw) == Some((file.tasks[0].name, "stdout"))
    requires TwoDone(file, d) && Uncancelled(obs, 3) && Leads(InitialDisk(file), false, script, d)
    ensures AtLaunch(file, false, script, d, obs, 2, d.tasks, d)
    ensures SureToQuote(d, CompletedOutputs(d.tasks), raw, Writer(1, 1))
  {
    ThirdIsNext(file, script, d, obs);
    var a, x := SequentialQuotesLast(file, script, d, obs, 2, d.tasks, d, raw);
    SecondIsLast(file, d, a, x);
  }

  lemma {:induction false} SecondIsLast(file: TaskFile, d: Disk, a: nat, x: nat)
    requires Trio(file) && DistinctNames(file.tasks) && TwoDone(file, d)
    requires a < |d.tasks| && d.tasks[a].def.name == file.tasks[0].name && d.tasks[a].stdoutLog.Some?
    requires LastOn(d.launches, d.tasks[a].stdoutLog.value) == Some(x)
    ensures x == 1 && d.launches[x].who == Writer(1, 1)
  {
    assert a == 0;
    assert d.launches[1].path == d.tasks[0].stdoutLog.value;
  }

  // ---------------------------------------------------------------- the file

  lemma {:induction false} TheReference()
    ensures Reference("A!.stdout") == Some(("A!", "stdout"))
  {
    TrimIsIdentity("A!.stdout");
    TrimIsIdentity("A!");
    TrimIsIdentity("stdout");
    assert "A!" + ['.'] + "stdout" == "A!.stdout";
    SplitOnceUnique("A!", '.', "stdout");
  }

  lemma {:induction false} TheTemplate()
    ensures Parse("{{A!.stdout}}") == Hole("", "A!.stdout", Tail(""))
  {
    assert "{{" + "A!.stdout" + "}}" == "{{A!.stdout}}";
    OneHole("A!.stdout");
  }

  lemma {:induction false} TrioGraph(tasks: seq<TaskDef>)
    requires |tasks| == 3 && tasks[0].dependsOn == tasks[1].dependsOn == []
    requires tasks[2].dependsOn == [tasks[0].name, tasks[1].name] && DistinctNames(tasks)
    ensures Acyclic(GraphOf(tasks))
  {
    var (a, b, c) := (tasks[0].name, tasks[1].name, tasks[2].name);
    GraphDeps(tasks, 0);
    GraphDeps(tasks, 1);
    GraphDeps(tasks, 2);
    GraphKeys(tasks);
    assert tasks == [tasks[0], tasks[1], tasks[2]];
    assert forall n :: n in NamesOf(tasks) ==> n == a || n == b || n == c;
    RankedIsAcyclic(GraphOf(tasks), map[a := 0, b := 0, c := 1]);
  }

  lemma {:induction false} PlainPromptOk(names: set<string>, t: TaskDef)
    requires Plain(t)
    ensures PromptOk(names, t)
  {
    assert Parse("") == Tail("");
  }

  lemma {:induction false} OneReferenceOk(names: set<string>, t: TaskDef, ref: (string, string))
    requires References(Parse(t.prompt)) == [ref] && ref.1 == "stdout" && ref.0 in names && ref.0 in t.dependsOn
    ensures PromptOk(names, t)
  {}

  lemma {:induction false} TrioIsValid(file: TaskFile)
    requires Trio(file) && DistinctNames(file.tasks)
    requires References(Parse(file.tasks[2].prompt)) == [(file.tasks[0].name, "stdout")]
    ensures ValidFile(file)
  {
    var tasks := file.tasks;
    TrioGraph(tasks);
    assert tasks[0] in tasks && tasks[1] in tasks;
    assert tasks[0].name in NamesOf(tasks) && tasks[1].name in NamesOf(tasks);
    PlainPromptOk(NamesOf(tasks), tasks[0]);
    PlainPromptOk(NamesOf(tasks), tasks[1]);
    assert tasks[2].dependsOn[0] in tasks[2].dependsOn;
    OneReferenceOk(NamesOf(tasks), tasks[2], (tasks[0].name, "stdout"));
  }

  lemma {:induction false} MakeTrio(a: string, b: string, c: string, prompt: string) returns (file: TaskFile)
    requires a != b && b != c && a != c && Slug(a) == Slug(b) && References(Parse(prompt)) == [(a, "stdout")]
    ensures Trio(file) && ValidFile(file)
    ensures file.tasks[0].name == a && file.tasks[1].name == b && file.tasks[2].prompt == prompt
  {
    file := TaskFile([
      TaskDef(a, "", [], None, None), TaskDef(b, "", [], None, None), TaskDef(c, prompt, [a, b], None, None)], None);
    TrioIsValid(file);
  }

  /** Such a valid file: the tasks `A!`, `a`, and `c`, which waits for both and quotes `{{A!.stdout}}`. */
  lemma {:induction false} QuotingFile() returns (file: TaskFile)
    ensures Trio(file) && ValidFile(file)
    ensures file.tasks[0].name == "A!" && file.tasks[1].name == "a" && file.tasks[2].prompt == "{{A!.stdout}}"
    ensures Holes(Parse(file.tasks[2].prompt)) == ["A!.stdout"] && Reference("A!.stdout") == Some(("A!", "stdout"))
  {
    TheReference();
    TheTemplate();
    CollidingSlugs();
    assert Holes(Tail("")) == [] && References(Tail("")) == [];
    file := MakeTrio("A!", "a", "c", "{{A!.stdout}}");
  }
}
