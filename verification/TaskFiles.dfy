/** Task files and their validation (`validate_task_file` in src/orchestrator.rs). */
module TaskFiles {
  import opened Numbers
  import opened Options
  import opened TaskGraph
  import opened Templates

  datatype TaskDef = TaskDef(
    name: string,
    prompt: string,
    dependsOn: seq<string>,
    retries: Option<U32>,
    peer: Option<string>)

  datatype TaskFile = TaskFile(tasks: seq<TaskDef>, retries: Option<U32>)

  /** The retries that apply to a task: its own setting wins over the file's. */
  function Retries(fileRetries: Option<U32>, taskRetries: Option<U32>): U32 {
    if taskRetries.Some? then taskRetries.value
    else if fileRetries.Some? then fileRetries.value
    else 0
  }

  /** One attempt and the retries, except that the highest number wraps around to 0. */
  predicate AttemptsFor(retries: U32, m: U32) {
    if retries == 0xFFFF_FFFF then m == 0 else m == retries + 1
  }

  /** `resolved_max_attempts`, which wraps around: the highest retry count yields no attempts at all. */
  function ResolvedMaxAttempts(fileRetries: Option<U32>, taskRetries: Option<U32>): (m: U32)
    ensures taskRetries.Some? ==> AttemptsFor(taskRetries.value, m)
    ensures taskRetries.None? && fileRetries.Some? ==> AttemptsFor(fileRetries.value, m)
    ensures taskRetries.None? && fileRetries.None? ==> m == 1
  {
    (1 + Retries(fileRetries, taskRetries)) % 0x1_0000_0000
  }

  function NamesOf(tasks: seq<TaskDef>): set<string> {
    set t | t in tasks :: t.name
  }

  /** The name-to-dependencies map the search works on; a later entry replaces an earlier one. */
  function GraphOf(tasks: seq<TaskDef>): Graph<string> {
    if tasks == [] then map[]
    else
      var last := tasks[|tasks| - 1];
      GraphOf(tasks[..|tasks| - 1])[last.name := last.dependsOn]
  }

  ghost predicate DistinctNames(tasks: seq<TaskDef>) {
    forall i, j :: 0 <= i < j < |tasks| ==> tasks[i].name != tasks[j].name
  }

  ghost predicate DependenciesExist(tasks: seq<TaskDef>) {
    forall i, k :: 0 <= i < |tasks| && 0 <= k < |tasks[i].dependsOn| ==>
      tasks[i].dependsOn[k] in NamesOf(tasks)
  }

  datatype FileError =
    | DuplicateName(task: string)
    | MissingDependency(task: string, dep: string)
    | UnsupportedFieldIn(task: string, ref: string, field: string)
    | UnknownReference(task: string, ref: string)
    | ReferenceNotDependency(task: string, ref: string)
    | CyclicDependencies(stack: seq<string>)

  /** What is wrong with one reference of a task's prompt, if anything. */
  function ReferenceError(names: set<string>, t: TaskDef, ref: (string, string)): Option<FileError> {
    var (refName, refField) := ref;
    if refField != "stdout" then Some(UnsupportedFieldIn(t.name, refName, refField))
    else if refName !in names then Some(UnknownReference(t.name, refName))
    else if refName !in t.dependsOn then Some(ReferenceNotDependency(t.name, refName))
    else None
  }

  /** Every reference is to the stdout of a task that exists and is a direct dependency. */
  ghost predicate RefsOk(names: set<string>, t: TaskDef, refs: seq<(string, string)>) {
    forall k :: 0 <= k < |refs| ==>
      refs[k].1 == "stdout" && refs[k].0 in names && refs[k].0 in t.dependsOn
  }

  ghost predicate PromptOk(names: set<string>, t: TaskDef) {
    RefsOk(names, t, References(Parse(t.prompt)))
  }

  ghost predicate ReferencesOk(tasks: seq<TaskDef>) {
    forall i :: 0 <= i < |tasks| ==> PromptOk(NamesOf(tasks), tasks[i])
  }

  ghost predicate ValidFile(file: TaskFile) {
    && DistinctNames(file.tasks)
    && DependenciesExist(file.tasks)
    && ReferencesOk(file.tasks)
    && Acyclic(GraphOf(file.tasks))
  }

  /** The first loop has nothing to object to in the tasks before `i`. */
  ghost predicate NamesOkUpto(tasks: seq<TaskDef>, i: nat) {
    && i <= |tasks|
    && (forall k, l :: 0 <= k < l < i ==> tasks[k].name != tasks[l].name)
    && (forall k, l :: 0 <= k < i && 0 <= l < |tasks[k].dependsOn| ==> tasks[k].dependsOn[l] in NamesOf(tasks))
  }

  ghost predicate NameTaken(tasks: seq<TaskDef>, i: nat)
    requires i < |tasks|
  {
    exists j :: 0 <= j < i && tasks[j].name == tasks[i].name
  }

  /** The task's first dependency that does not exist. */
  ghost predicate FirstMissing(tasks: seq<TaskDef>, i: nat, d: string)
    requires i < |tasks|
  {
    exists k :: 0 <= k < |tasks[i].dependsOn| && tasks[i].dependsOn[k] == d && d !in NamesOf(tasks)
                && forall l :: 0 <= l < k ==> tasks[i].dependsOn[l] in NamesOf(tasks)
  }

  /**
   What each rejection says of the file: it is for the first defect in the order of the checks,
   and within one check in the order of the file.
   */
  ghost predicate ErrorHolds(file: TaskFile, e: FileError) {
    var tasks := file.tasks;
    match e
    case DuplicateName(n) =>
      exists i :: 0 <= i < |tasks| && tasks[i].name == n && NamesOkUpto(tasks, i) && NameTaken(tasks, i)
    case MissingDependency(n, d) =>
      exists i :: 0 <= i < |tasks| && tasks[i].name == n && NamesOkUpto(tasks, i) && !NameTaken(tasks, i)
                  && FirstMissing(tasks, i, d)
    case CyclicDependencies(stack) =>
      && ClosesLoop(GraphOf(tasks), stack)
      && DistinctNames(tasks) && DependenciesExist(tasks) && ReferencesOk(tasks)
    case _ =>
      && DistinctNames(tasks) && DependenciesExist(tasks)
      && exists i :: 0 <= i < |tasks| && FirstBadTask(NamesOf(tasks), tasks, i, e)
  }

  /** The task is the first whose prompt has a bad reference. */
  ghost predicate FirstBadTask(names: set<string>, tasks: seq<TaskDef>, i: nat, e: FileError)
    requires i < |tasks|
  {
    BadReference(names, tasks[i], e) && forall j :: 0 <= j < i ==> PromptOk(names, tasks[j])
  }

  /** The error is that of the first bad reference in the task's prompt. */
  ghost predicate BadReference(names: set<string>, t: TaskDef, e: FileError) {
    FirstBad(names, t, References(Parse(t.prompt)), e)
  }

  ghost predicate FirstBad(names: set<string>, t: TaskDef, refs: seq<(string, string)>, e: FileError) {
    exists k :: 0 <= k < |refs| && Faulty(names, t, refs[k], e) && RefsOk(names, t, refs[..k])
  }

  /**
   What the error says of the reference; an unsupported field comes before an unknown task, and that
   before a missing dependency.
   */
  ghost predicate Faulty(names: set<string>, t: TaskDef, ref: (string, string), e: FileError) {
    match e
    case UnsupportedFieldIn(n, r, f) => n == t.name && ref == (r, f) && f != "stdout"
    case UnknownReference(n, r) => n == t.name && ref == (r, "stdout") && r !in names
    case ReferenceNotDependency(n, r) => n == t.name && ref == (r, "stdout") && r in names && r !in t.dependsOn
    case _ => false
  }

  lemma {:induction false} GraphKeys(tasks: seq<TaskDef>)
    ensures GraphOf(tasks).Keys == NamesOf(tasks)
  {
    if tasks != [] {
      var init, last := tasks[..|tasks| - 1], tasks[|tasks| - 1];
      GraphKeys(init);
      assert forall t :: t in tasks <==> t in init || t == last;
      assert NamesOf(tasks) == NamesOf(init) + {last.name};
    }
  }

  lemma {:induction false} GraphDeps(tasks: seq<TaskDef>, i: nat)
    requires DistinctNames(tasks) && i < |tasks|
    ensures Deps(GraphOf(tasks), tasks[i].name) == tasks[i].dependsOn
  {
    var init := tasks[..|tasks| - 1];
    if i < |tasks| - 1 {
      GraphDeps(init, i);
      GraphKeys(init);
      assert init[i] == tasks[i];
      assert tasks[i].name != tasks[|tasks| - 1].name;
      assert init[i] in init;
      assert tasks[i].name in NamesOf(init);
    }
  }

  /** Accepts exactly the valid files; a rejection names a defect the file really has. */
  method ValidateTaskFile(file: TaskFile) returns (r: Result<(), FileError>)
    ensures r.Ok? <==> ValidFile(file)
    ensures r.Err? ==> ErrorHolds(file, r.error)
  {
    r := ValidateNames(file);
    if r.Err? {
      return;
    }
    r := ValidateTemplateReferences(file);
    if r.Err? {
      return;
    }
    var names := seq(|file.tasks|, i requires 0 <= i < |file.tasks| => file.tasks[i].name);
    GraphKeys(file.tasks);
    assert forall n :: n in names <==> n in NamesOf(file.tasks) by {
      forall t | t in file.tasks ensures t.name in names {
        var i :| 0 <= i < |file.tasks| && file.tasks[i] == t;
        assert names[i] == t.name;
      }
    }
    var search := ValidateAcyclic(names, GraphOf(file.tasks));
    if search.Err? {
      ClosedLoopIsCycle(GraphOf(file.tasks), search.error);
      return Err(CyclicDependencies(search.error));
    }
  }

  /** The first loop of `validate_task_file`: duplicate names and missing dependencies. */
  method ValidateNames(file: TaskFile) returns (r: Result<(), FileError>)
    ensures r.Ok? <==> DistinctNames(file.tasks) && DependenciesExist(file.tasks)
    ensures r.Err? ==> ErrorHolds(file, r.error)
  {
    var tasks := file.tasks;
    var names := NamesOf(tasks);
    var seen: set<string> := {};
    var i := 0;
    while i < |tasks|
      invariant 0 <= i <= |tasks|
      invariant forall n :: n in seen <==> exists k :: 0 <= k < i && tasks[k].name == n
      invariant forall k, l :: 0 <= k < l < i ==> tasks[k].name != tasks[l].name
      invariant forall k, l :: 0 <= k < i && 0 <= l < |tasks[k].dependsOn| ==> tasks[k].dependsOn[l] in names
    {
      var task := tasks[i];
      if task.name in seen {
        return Err(DuplicateName(task.name));
      }
      seen := seen + {task.name};
      var j := 0;
      while j < |task.dependsOn|
        invariant 0 <= j <= |task.dependsOn|
        invariant forall k :: 0 <= k < j ==> task.dependsOn[k] in names
      {
        if task.dependsOn[j] !in names {
          return Err(MissingDependency(task.name, task.dependsOn[j]));
        }
        j := j + 1;
      }
      i := i + 1;
    }
    r := Ok(());
  }

  /** `validate_template_references`. */
  method ValidateTemplateReferences(file: TaskFile) returns (r: Result<(), FileError>)
    requires DistinctNames(file.tasks) && DependenciesExist(file.tasks)
    ensures r.Ok? <==> ReferencesOk(file.tasks)
    ensures r.Err? ==> ErrorHolds(file, r.error)
  {
    ghost var bad;
    r, bad := CheckPrompts(NamesOf(file.tasks), file.tasks);
    if r.Err? {
      BadReferenceRejects(file, bad, r.error);
    }
  }

  /** Its loop over the tasks; the ghost result is the task that is rejected. */
  method CheckPrompts(names: set<string>, tasks: seq<TaskDef>) returns (r: Result<(), FileError>, ghost bad: nat)
    ensures r.Ok? <==> forall i :: 0 <= i < |tasks| ==> PromptOk(names, tasks[i])
    ensures r.Err? ==> bad < |tasks| && FirstBadTask(names, tasks, bad, r.error)
  {
    bad := 0;
    var i := 0;
    while i < |tasks|
      invariant 0 <= i <= |tasks|
      invariant forall k :: 0 <= k < i ==> PromptOk(names, tasks[k])
    {
      r := CheckPrompt(names, tasks[i]);
      if r.Err? {
        bad := i;
        return;
      }
      i := i + 1;
    }
    r := Ok(());
  }

  /** A bad reference of one task is what the rejection says of the file. */
  lemma {:induction false} BadReferenceRejects(file: TaskFile, i: nat, e: FileError)
    requires DistinctNames(file.tasks) && DependenciesExist(file.tasks)
    requires i < |file.tasks| && FirstBadTask(NamesOf(file.tasks), file.tasks, i, e)
    ensures ErrorHolds(file, e)
  {}

  method CheckPrompt(names: set<string>, task: TaskDef) returns (r: Result<(), FileError>)
    ensures r.Ok? <==> PromptOk(names, task)
    ensures r.Err? ==> BadReference(names, task, r.error)
  {
    var refs := ExtractTemplateRefs(task.prompt);
    r := CheckReferences(names, task, refs);
  }

  /** Its inner loop: the references of one task's prompt. */
  method CheckReferences(names: set<string>, task: TaskDef, refs: seq<(string, string)>)
    returns (r: Result<(), FileError>)
    ensures r.Ok? <==> RefsOk(names, task, refs)
    ensures r.Err? ==> FirstBad(names, task, refs, r.error)
  {
    var j := 0;
    while j < |refs|
      invariant 0 <= j <= |refs|
      invariant forall k :: 0 <= k < j ==> ReferenceError(names, task, refs[k]).None?
    {
      var e := ReferenceError(names, task, refs[j]);
      if e.Some? {
        return Err(e.value);
      }
      j := j + 1;
    }
    r := Ok(());
  }
}
