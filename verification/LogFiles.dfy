/** Which tasks can come to write to one log file. */
module LogFiles {
  import opened Filters
  import opened Options
  import opened Text
  import opened Strings
  import opened TaskFiles
  import opened TaskRuns
  import opened RunInvariant
  import opened SmoothRuns

  // ---------------------------------------------------------------- file names

  /** What a slug keeps of a task's name. */
  predicate InSlug(c: char) {
    'A' <= c <= 'Z' || 'a' <= c <= 'z' || '0' <= c <= '9' || c in "-_." || IsWhitespace(c)
  }

  /** Letters in lower case, and whitespace as dashes. */
  predicate SlugShows(c: char, d: char) {
    if 'A' <= c <= 'Z' then d as int == c as int + 32
    else if IsWhitespace(c) then d == '-'
    else d == c
  }

  lemma {:induction false} SlugCharsKept(name: string) returns (places: seq<nat>)
    ensures Picks(name, InSlug, places) && ShowsAt(name, places, SlugShows, SlugChars(name))
  {
    places := [];
    if name != "" {
      var later := SlugCharsKept(name[1..]);
      PicksMore(name, InSlug, later);
      ShowsMore(name, later, SlugShows, SlugChars(name[1..]));
      OneSlugChar(name[0], SlugChars(name[1..]), name);
      places := (if InSlug(name[0]) then [0] else []) + Shifted(later);
    }
  }

  lemma {:induction false} OneSlugChar(c: char, rest: string, name: string)
    requires name != "" && c == name[0] && rest == SlugChars(name[1..])
    ensures InSlug(c) ==> exists d :: SlugShows(c, d) && SlugChars(name) == [d] + rest
    ensures !InSlug(c) ==> SlugChars(name) == [] + rest
  {
    if 'A' <= c <= 'Z' {
      assert SlugShows(c, c - 'A' + 'a') && SlugChars(name) == [c - 'A' + 'a'] + rest;
    } else if IsWhitespace(c) {
      assert SlugShows(c, '-') && SlugChars(name) == ['-'] + rest;
    } else if InSlug(c) {
      assert SlugShows(c, c) && SlugChars(name) == [c] + rest;
    }
  }

  /** A slug is what it keeps of the name, in order, or `task` if that is nothing. */
  lemma {:induction false} SlugKeeps(name: string) returns (places: seq<nat>)
    ensures Picks(name, InSlug, places)
    ensures if places == [] then Slug(name) == "task" else ShowsAt(name, places, SlugShows, Slug(name))
  {
    places := SlugCharsKept(name);
  }

  lemma {:induction false} DecimalHasNoDash(n: nat)
    ensures '-' !in Decimal(n)
  {
    if n >= 10 {
      DecimalHasNoDash(n / 10);
    }
  }

  /** A log's file name determines the slug and the attempt it was made of, whatever the slug contains. */
  lemma {:induction false} LogNameInjective(slug: string, attempt: nat, slug': string, attempt': nat)
    ensures LogName(slug, attempt) == LogName(slug', attempt') <==> slug == slug' && attempt == attempt'
  {
    var head, tail := slug + ".attempt", Decimal(attempt) + ".stdout.log";
    var head', tail' := slug' + ".attempt", Decimal(attempt') + ".stdout.log";
    DecimalHasNoDash(attempt);
    DecimalHasNoDash(attempt');
    RSplitOnceUnique(head, '-', tail);
    RSplitOnceUnique(head', '-', tail');
    if LogName(slug, attempt) == LogName(slug', attempt') {
      SamePrefix(slug, slug', ".attempt");
      SamePrefix(Decimal(attempt), Decimal(attempt'), ".stdout.log");
      DecimalInjective(attempt, attempt');
    }
  }

  lemma SamePrefix(a: string, b: string, suffix: string)
    requires a + suffix == b + suffix
    ensures a == b
  {
    assert |a| == |b|;
    assert a == (a + suffix)[..|a|] && b == (b + suffix)[..|b|];
  }

  // ---------------------------------------------------------------- sharing

  /** Some attempt of the one task logged to the file that some attempt of the other did. */
  ghost predicate ShareLog(t: TaskRun, u: TaskRun) {
    exists k, l :: 0 <= k < |t.attempts| && 0 <= l < |u.attempts| && SameLog(t.attempts[k], u.attempts[l])
  }

  predicate SameLog(a: Attempt, b: Attempt) {
    a.stdoutLog.Some? && a.stdoutLog == b.stdoutLog
  }

  lemma {:induction false} AttemptLogs(file: TaskFile, ts: seq<TaskRun>, i: nat, k: nat)
    requires Inv(file, ts) && i < |ts| && k < |ts[i].attempts| && ts[i].attempts[k].stdoutLog.Some?
    ensures ts[i].attempts[k].stdoutLog == Some(LogName(Slug(file.tasks[i].name), k + 1))
  {
    assert RecordOk(file, ts, i);
  }

  /** In every reachable state tasks share a log only if their slugs are equal; with distinct slugs none do. */
  lemma {:induction false} SharingNeedsEqualSlugs(file: TaskFile, ts: seq<TaskRun>, i: nat, j: nat)
    requires Inv(file, ts) && i < |ts| && j < |ts| && ShareLog(ts[i], ts[j])
    ensures Slug(file.tasks[i].name) == Slug(file.tasks[j].name)
  {
    var k, l :| 0 <= k < |ts[i].attempts| && 0 <= l < |ts[j].attempts| && SameLog(ts[i].attempts[k], ts[j].attempts[l]);
    AttemptLogs(file, ts, i, k);
    AttemptLogs(file, ts, j, l);
    LogNameInjective(Slug(file.tasks[i].name), k + 1, Slug(file.tasks[j].name), l + 1);
  }

  /** The attempts of one task never share a log. */
  lemma {:induction false} OwnLogsDiffer(file: TaskFile, ts: seq<TaskRun>, i: nat, k: nat, l: nat)
    requires Inv(file, ts) && i < |ts| && k < l < |ts[i].attempts|
    ensures !SameLog(ts[i].attempts[k], ts[i].attempts[l])
  {
    if SameLog(ts[i].attempts[k], ts[i].attempts[l]) {
      AttemptLogs(file, ts, i, k);
      AttemptLogs(file, ts, i, l);
      LogNameInjective(Slug(file.tasks[i].name), k + 1, Slug(file.tasks[i].name), l + 1);
    }
  }

  /** The latest logs of two tasks that run or have completed are one file iff slugs and attempt numbers agree. */
  lemma {:induction false} LogsCollideIff(file: TaskFile, ts: seq<TaskRun>, i: nat, j: nat)
    requires Inv(file, ts) && i < |ts| && j < |ts|
    requires (ts[i].state.Completed? || ts[i].state.Running?) && (ts[j].state.Completed? || ts[j].state.Running?)
    ensures ts[i].stdoutLog == ts[j].stdoutLog <==>
      Slug(file.tasks[i].name) == Slug(file.tasks[j].name) && ts[i].attemptsStarted == ts[j].attemptsStarted
  {
    assert RecordOk(file, ts, i) && RecordOk(file, ts, j);
    LogNameInjective(
      Slug(file.tasks[i].name), ts[i].attemptsStarted, Slug(file.tasks[j].name), ts[j].attemptsStarted);
  }

  // ---------------------------------------------------------------- exactly when logs are shared

  ghost predicate SharedIn(ts: seq<TaskRun>, i: nat, j: nat) {
    i < |ts| && j < |ts| && ShareLog(ts[i], ts[j])
  }

  /**
   Two tasks of a valid file share a log in some run, in either mode, iff their slugs are equal
   and both are launchable, which shows before anything runs.
   */
  lemma {:induction false} LogsSharedIff(file: TaskFile, parallel: bool, i: nat, j: nat)
    requires ValidFile(file) && i < |file.tasks| && j < |file.tasks|
    ensures (exists ts :: Reachable(file, parallel, ts) && SharedIn(ts, i, j)) <==>
      Slug(file.tasks[i].name) == Slug(file.tasks[j].name) && Launchable(file, i) && Launchable(file, j)
  {
    if Slug(file.tasks[i].name) == Slug(file.tasks[j].name) && Launchable(file, i) && Launchable(file, j) {
      var ts := CleanRunExists(file, parallel);
      LaunchableCompletes(file, ts, i);
      LaunchableCompletes(file, ts, j);
      assert SameLog(ts[i].attempts[0], ts[j].attempts[0]);
      assert SharedIn(ts, i, j);
    }
    forall ts | Reachable(file, parallel, ts) && SharedIn(ts, i, j)
      ensures Slug(file.tasks[i].name) == Slug(file.tasks[j].name) && Launchable(file, i) && Launchable(file, j)
    {
      ReachableKeepsInv(file, parallel, ts);
      SharingNeedsEqualSlugs(file, ts, i, j);
      assert RecordOk(file, ts, i) && RecordOk(file, ts, j);
      StartedIsLaunchable(file, ts, i);
      StartedIsLaunchable(file, ts, j);
    }
  }

  // ---------------------------------------------------------------- who has a log alone

  /** No other attempt logged to the file of this one. */
  ghost predicate SoleLogger(ts: seq<TaskRun>, i: nat, k: nat)
    requires i < |ts| && k < |ts[i].attempts|
  {
    && ts[i].attempts[k].stdoutLog.Some?
    && forall j, l :: 0 <= j < |ts| && 0 <= l < |ts[j].attempts| && SameLog(ts[i].attempts[k], ts[j].attempts[l]) ==>
         j == i && l == k
  }

  /** No other launchable task has the task's slug. */
  ghost predicate SlugAlone(file: TaskFile, a: nat)
    requires a < |file.tasks|
  {
    forall j :: 0 <= j < |file.tasks| && j != a && Launchable(file, j) ==> Slug(file.tasks[j].name) != Slug(file.tasks[a].name)
  }

  /** Then no other attempt ever logs to a file of the task's attempts, in any run. */
  lemma {:induction false} AloneMeansSole(file: TaskFile, parallel: bool, ts: seq<TaskRun>, a: nat)
    requires ValidFile(file) && Reachable(file, parallel, ts) && a < |file.tasks| && SlugAlone(file, a)
    ensures |ts| == |file.tasks|
    ensures forall k :: 0 <= k < |ts[a].attempts| && ts[a].attempts[k].stdoutLog.Some? ==> SoleLogger(ts, a, k)
  {
    ReachableKeepsInv(file, parallel, ts);
    forall k, j, l | 0 <= k < |ts[a].attempts| && 0 <= j < |ts| && 0 <= l < |ts[j].attempts|
      && SameLog(ts[a].attempts[k], ts[j].attempts[l])
      ensures j == a && l == k
    {
      OnlyOwnLog(file, ts, a, k, j, l);
    }
  }

  lemma {:induction false} OnlyOwnLog(file: TaskFile, ts: seq<TaskRun>, a: nat, k: nat, j: nat, l: nat)
    requires ValidFile(file) && Inv(file, ts) && a < |ts| && j < |ts| && SlugAlone(file, a)
    requires k < |ts[a].attempts| && l < |ts[j].attempts| && SameLog(ts[a].attempts[k], ts[j].attempts[l])
    ensures j == a && l == k
  {
    SharingNeedsEqualSlugs(file, ts, a, j);
    assert RecordOk(file, ts, j);
    StartedIsLaunchable(file, ts, j);
    if l != k {
      OwnLogsDiffer(file, ts, a, if k < l then k else l, if k < l then l else k);
    }
  }

  // ---------------------------------------------------------------- a file whose logs collide

  lemma {:induction false} CollidingSlugs()
    ensures Slug("A!") == Slug("a") == "a"
  {
    assert SlugChars("!") == "";
  }

  lemma {:induction false} PlainCollision(file: TaskFile, i: nat, j: nat)
    requires AllPlain(file) && i < |file.tasks| && j < |file.tasks| && Slug(file.tasks[i].name) == Slug(file.tasks[j].name)
    ensures BothRunningOn(Iteration(InitialRuns(file), true, Busy(|file.tasks|)), i, j)
  {
    PlainTasksStay(file, Busy(|file.tasks|), i);
    PlainTasksStay(file, Busy(|file.tasks|), j);
  }

  /** Two tasks that run at the same time and write to one file. */
  predicate BothRunningOn(ts: seq<TaskRun>, i: nat, j: nat) {
    && i < |ts| && j < |ts| && ts[i].state.Running? && ts[j].state.Running?
    && ts[i].stdoutLog.Some? && ts[i].stdoutLog == ts[j].stdoutLog
  }

  /** A valid file of two independent tasks. */
  lemma {:induction false} PlainPair(a: string, b: string) returns (file: TaskFile)
    requires a != b
    ensures file.tasks == [TaskDef(a, "", [], None, None), TaskDef(b, "", [], None, None)]
    ensures AllPlain(file) && ValidFile(file)
  {
    file := TaskFile([TaskDef(a, "", [], None, None), TaskDef(b, "", [], None, None)], None);
    PlainFileIsValid(file);
  }

  /** A valid file two of whose tasks run at once on one log, after a single iteration. */
  lemma {:induction false} BothRunOnOneLog() returns (file: TaskFile, obs: Observation)
    ensures file.tasks == [TaskDef("A!", "", [], None, None), TaskDef("a", "", [], None, None)] && ValidFile(file)
    ensures BothRunningOn(Iteration(InitialRuns(file), true, obs), 0, 1)
  {
    file := PlainPair("A!", "a");
    obs := Busy(|file.tasks|);
    CollidingSlugs();
    PlainCollision(file, 0, 1);
  }
}
