# Verified model of claudectl's task runner, access grants, rate limiter and transcript walker

A Dafny model of four parts of claudectl, with proofs of what they promise. `dafny verify dfyconfig.toml`
checks the whole project.

**The task runner** (`src/orchestrator.rs`). `TaskGraph` is the three-colour depth-first search as a class that
mutates its colour map and stack; it accepts exactly the acyclic graphs. `Templates` gives the `{{name.stdout}}`
placeholders a grammar that is proved to be the only leftmost one, and proves both scanners (validation's and
expansion's) against it; `Placeholders` spells out what a placeholder says, what it is replaced by and how it
fails. `TaskFiles` is validation as a whole. `TaskRuns` defines what one iteration of the poll loop does to the
task records, as a function of the environment's answers: whether each launch succeeds, whether and how each
process ended, what the clock shows, what each log holds when a task is launched, and which read of the cancel flag
first finds it set. A panic while a prompt is expanded aborts the process, and with it the run. `Scheduler` is the
code itself, updating an array of records in place, and is proved to compute those functions. `Turns` says what one
iteration does to each record in terms of those answers alone: which tasks the launch loop gets to, which text a
process is started with, what a poll makes of an exit status; `Histories` says what follows for runs and their
results. The properties of whole runs are in `RunInvariant` (what holds in every reachable state), `Passes` (that
it holds inside the passes too), `RunProgress` (no deadlock), `RunEnds` (an explicit bound on the iterations when
processes end and the clock moves on), `RunOutcome` (the exact set of tasks that a failure skips, cancellation,
launching, the returned result), `SmoothRuns` (which tasks can complete at all), `LeftRuns` (which files can crash
a run, and what a run that is left early leaves behind), `LogFiles` (which tasks can come to write to one log
file), `LogContents` (who may have written to each log since it was truncated, and whose output a prompt therefore
quotes) and `Misquotes` (a run in which that is the wrong task's).

**Access grants** (`src/access`). `Scopes`, `Strings` and `Tokens` prove the signed encoding lossless and the
token syntax unambiguous. `Grants` says what each store operation does to the disk, `GrantStores` is the store
as a class whose methods do it, `GrantProcesses` interleaves any number of processes that hold stale copies,
`GrantDenials` says why a verification is refused and what is logged of it, and `GrantBudget` counts charges, in
any mix with recorded uses and flags, on a clock that may step back. The MAC is an uninterpreted function; only
`EditedRecordFailsMac` assumes anything of it, and that only for the two payloads concerned.

**The rate limiter** (`src/rate_limit.rs`). `TokenBucket` proves, on any clock, that the incrementally updated
level is the minimum over all windows of the call history, on a clock that measures time by the tokens it
refills; `RateLimit` carries that to seconds and to the limiter's map of buckets.

**The transcript walker, its detectors and the cost breakdown** (`src/brain/autopsy.rs`), in `Walker`,
`Detectors` and `Costs`; `Transcripts` and `Findings` say what the walk, the findings and the figures mean for the
messages themselves.

`Text` and `Spellings` model the Rust string operations these rely on, `Filters` says what filtering keeps, and
`Options` and `Numbers` hold what they share.

Some things in the code fall short of what its comments or tests lead a reader to expect. They are kept as
they are and characterised exactly:

- Validation passes over a closed placeholder without a dot (`src/orchestrator.rs:1088`), which expansion
  rejects (`src/orchestrator.rs:1161-1166`): such a file is accepted (`RunOutcome.UndottedIsAccepted`) and the
  task never starts an attempt (`RunOutcome.UndottedNeverStarts`). When every log can be read and cut, a ready
  task expands iff its placeholders all have a dot (`RunOutcome.ExpandsIffDotted`).
- Cutting captured output at 32 KB (`src/orchestrator.rs:1192`) panics exactly when byte 32768 is inside a
  character (`Templates.CapPanicsIff`, with an input in `Templates.OversizedLogPanics`, and
  `Templates.ExpandPanicsIff` for the expansion). Some run of a valid file is aborted by it iff some undelegated
  task's first placeholder has a dot and nothing it transitively depends on is delegated or has an undotted
  placeholder (`LeftRuns.CrashesIff`). Quoting an error text panics exactly when it is over 120
  bytes and byte 120 is inside a character (`src/brain/autopsy.rs:314`, `Detectors.DetailPanicsIff`, with an
  input in `Detectors.CascadeThatPanics`).
- Log files are named by a slug of the task's name (`src/orchestrator.rs:738-740`), which is not injective.
  Two tasks of a valid file come to share a log in some run iff their slugs are equal and neither they nor
  anything they depend on is delegated or has an undotted placeholder (`LogFiles.LogsSharedIff`);
  `LogFiles.BothRunOnOneLog` shows two that run at once on one file. When a task is launched, a placeholder is
  sure to be replaced by what the last attempt of the task it names printed iff no other attempt was running on
  that attempt's file when it was launched and none has been launched on it since (`LogContents.OwnOutputIff`);
  it always is when no other launchable task has the slug (`LogContents.AloneIsSure`). In sequential mode it is
  sure to be replaced by the output of the last attempt launched on the file, whichever task's that is
  (`LogContents.SequentialQuotesLast`); `Misquotes.QuotingFile` is a valid file, and `Misquotes.OtherOutputQuoted`
  a run of it, in which it is another task's.
- The attempt limit is one more than the retry count and wraps around (`src/orchestrator.rs:626`), so the
  highest retry count yields the limit 0, and one attempt (`TaskFiles.ResolvedMaxAttempts`).
- A backward step of the clock refills the same interval twice (`src/rate_limit.rs:122-126`). For given call
  times, capacity + rate * elapsed time bounds the admissions of every stretch, at every real capacity and rate,
  iff the times never step back (`RateLimit.ElapsedBoundIff`, with an input in `RateLimit.StepBackAdmitsMore`);
  for any one limiter it does so on every clock with steps back of at most b seconds iff b is zero
  (`RateLimit.LimiterBoundIff`). With
  the forward movement of the clock in place of elapsed time the bound holds on any clock.
- A retry hint asked for at an instant before the key's last call can be too early (`src/rate_limit.rs:140-152`):
  `RateLimit.RetryAfterIsLeast` says exactly when, `RateLimit.HintTooEarly` gives an input.
- A file edited four times or more is charged a quarter of the tokens between its first and last edit, where the
  comment speaks of half (`src/brain/autopsy.rs:558-569`, `Findings.UndoCostIs`).
- A transcript result that arrives while no call is pending is dropped (`src/brain/autopsy.rs:216-230`), so
  later results pair as if it had not been there (`Walker.NothingDroppedIff`, with an input in
  `Walker.EarlyResultShiftsPairing`).

## Model

| member | source | states |
|---|---|---|
| TaskGraph.ValidateAcyclic | src/orchestrator.rs:573-623 | Ok exactly when no dependency path closes on itself; otherwise the reported stack is a real dependency path whose last name occurs in it before |
| TaskGraph.CycleFinder.Visit | src/orchestrator.rs:580-611 | a visit restores the stack and finishes its name after everything the name depends on, or leaves a stack that closes a loop; it ends because every call colours an uncoloured name |
| TaskGraph.CycleFinder.VisitDependencies | src/orchestrator.rs:602-606 | after the inner loop every dependency of the name on top of the stack is finished, or the stack closes a loop |
| TaskGraph.RankedIsAcyclic | src/orchestrator.rs:608-609 | an order of finishing in which dependencies come first rules out every cycle |
| TaskGraph.ClosedLoopIsCycle | src/orchestrator.rs:590-595 | a stack as reported on failure exhibits a dependency cycle |
| TaskGraph.MinimalExists | src/orchestrator.rs:569-571 | what acyclicity is for: any nonempty set of tasks has one that depends on none of the set |
| Text.TrimStrips | src/orchestrator.rs:1087-1089 | trimming strips whitespace only, and all of it, at both ends |
| Text.FindPairIsFirst | src/orchestrator.rs:1084-1086 | the scan for a brace pair finds the first one, and none only if there is none |
| Text.SplitOnceCuts | src/orchestrator.rs:1088 | the split is at the first dot, and fails only without one |
| Spellings.CutIsSpelling | src/orchestrator.rs:1088-1089 | trimming, cutting at the first separator and trimming both parts gives exactly the two parts that the text spells with whitespace around either, and nothing iff it has no separator |
| Text.Utf8WidthIsLeast | src/orchestrator.rs:1191 | a character counts the least number of bytes that has room for its code point, as in section 3 of RFC 3629 |
| Text.TruncateAt | src/orchestrator.rs:1191-1192 | truncation at a byte offset keeps exactly that many bytes, and fails only when no character ends there |
| Text.TruncateFailsIff | src/orchestrator.rs:1191-1192 | truncating a longer text fails iff the byte offset is inside one of its characters |
| Text.WideCharacterCuts | src/orchestrator.rs:1191-1192 | for every offset and every ending there is a text that cannot be cut there |
| Templates.ParsePrints | src/orchestrator.rs:1081-1098 | cutting a prompt at its closed placeholders loses nothing, and each placeholder opens and closes at the leftmost pair of braces |
| Templates.ParseUnique | src/orchestrator.rs:1081-1098 | no other leftmost cutting of a prompt exists, so this is the grammar of templates |
| Templates.ExtractTemplateRefs | src/orchestrator.rs:1081-1098 | the validator's scan returns the trimmed name and field of every dotted placeholder, in order, and passes over the others |
| Templates.ReferencesAreHoles | src/orchestrator.rs:1086-1090 | a reference is returned iff some closed placeholder spells it |
| Templates.DottedReferences | src/orchestrator.rs:1084-1092 | when every placeholder has a dot, the k-th reference is that of the k-th placeholder |
| Templates.NamesAreReferences | src/orchestrator.rs:1161-1178 | the names that expansion may look up are the names of the extracted references, in order |
| Templates.ExpandPromptTemplates | src/orchestrator.rs:1140-1201 | the launch scan computes the expansion of the parsed prompt, panics included; its lookups are a prefix of the extracted names, and all of them, in order, when it succeeds |
| Templates.ResolvePlaceholder | src/orchestrator.rs:1158-1197 | one placeholder is replaced by the trimmed, capped log of the task it names, or fails for the first reason that applies |
| Templates.ExpandPanicsIff | src/orchestrator.rs:1146-1197 | expansion panics iff some placeholder asks for a log with byte 32768 inside a character, and all placeholders before it resolve |
| Templates.ExpandOkIff | src/orchestrator.rs:1146-1197 | expansion succeeds iff every placeholder resolves |
| Templates.ExpandErrIsFirst | src/orchestrator.rs:1161-1187 | an error is that of the first placeholder that does not resolve |
| Templates.ExpandIsOnePass | src/orchestrator.rs:1146-1200 | the result is the literal segments interleaved with the captured outputs; substituted text is never scanned again |
| Templates.UndottedNeverExpands | src/orchestrator.rs:1161-1166 | a prompt with an undotted placeholder never expands, whatever the outputs |
| Templates.CapPanicsIff | src/orchestrator.rs:1191-1194 | capturing a log panics exactly when it is over 32 KB and byte 32768 is not a character boundary |
| Templates.OversizedLogPanics | src/orchestrator.rs:1191-1194 | such a log exists: 32767 ASCII characters, then a two-byte one and the final newline |
| Placeholders.ReferenceSpelled | src/orchestrator.rs:1086-1090 | a placeholder refers to a name and a field iff it spells them with a dot between, whitespace aside; to nothing iff it has no dot |
| Placeholders.CapKeeps | src/orchestrator.rs:1191-1194 | a log of at most 32768 bytes is captured whole; a longer one as its first 32768 bytes and the notice |
| Placeholders.ResolvesIff | src/orchestrator.rs:1158-1197 | a placeholder is replaced by a text iff it asks for the stdout of a task with a readable log that can be cut, and the text is what is captured of that log, trimmed |
| Placeholders.FailsIff | src/orchestrator.rs:1161-1187 | each failure of a placeholder comes exactly with its own condition, in the source's order |
| Placeholders.ExpandsIff | src/orchestrator.rs:1140-1201 | a prompt expands to a text iff each placeholder is replaced so, and the text is the prompt with that done once |
| Placeholders.ExpansionFailsIff | src/orchestrator.rs:1146-1197 | it fails with an error iff that is how its first placeholder that is not replaced fails |
| TaskFiles.ResolvedMaxAttempts | src/orchestrator.rs:625-627 | the limit is one more than the retry count that applies, except that the highest count wraps around to 0 |
| TaskFiles.GraphKeys | src/orchestrator.rs:613-614 | the search's map has exactly the file's task names |
| TaskFiles.GraphDeps | src/orchestrator.rs:602-614 | with distinct names, looking a task up yields that task's own dependencies |
| TaskFiles.ValidateTaskFile | src/orchestrator.rs:540-571 | accepts exactly the files with distinct names, existing dependencies, supported references to direct dependencies, and no cycle; a rejection names a defect the file has, found after the earlier checks passed |
| TaskFiles.ValidateNames | src/orchestrator.rs:548-567 | the first loop rejects exactly duplicate names and missing dependencies |
| TaskFiles.ValidateTemplateReferences | src/orchestrator.rs:1101-1136 | rejects exactly a file with a reference to an unsupported field, an unknown task or a task that is no direct dependency |
| TaskFiles.CheckPrompts | src/orchestrator.rs:1104-1134 | its loop stops at a task whose prompt has a bad reference, and passes only if none has |
| TaskFiles.CheckReferences | src/orchestrator.rs:1105-1133 | the error is that of the first bad reference of the prompt |
| Scheduler.MarkDependencyFailures | src/orchestrator.rs:640-670 | one marking pass over the records in place: every queued task with a failed, skipped or aborted dependency is skipped, judged by the states before the pass |
| Scheduler.AbortTasks | src/orchestrator.rs:672-694 | in place: running tasks are killed and their attempt closed, queued tasks are cancelled, terminal ones untouched |
| Scheduler.LaunchReady | src/orchestrator.rs:282-391 | the launch loop in place, with its two early exits and the exit by panic, equals the recursive definition of a launch pass |
| Scheduler.Launch | src/orchestrator.rs:306-391 | what happens to a task that nothing holds back: delegation, template failure, start, retry or failure |
| Scheduler.PollRunning | src/orchestrator.rs:393-462 | the poll loop in place equals the pointwise definition of a poll pass |
| Scheduler.Iterate | src/orchestrator.rs:240-462 | one iteration: abort if cancelled, mark, launch, and poll unless a panic aborted the process |
| Scheduler.ComputeCounts | src/orchestrator.rs:824-838 | the counts are those of the records' states |
| Scheduler.PollLoop | src/orchestrator.rs:240-471 | the loop's records go through the states that the run's definition gives, and it is left exactly when that run is over |
| Scheduler.RunTasks | src/orchestrator.rs:200-514 | a file is rejected iff invalid, with a true reason; a valid one fails if the run's directory cannot be made; otherwise the result is the one read off the run's final states |
| RunInvariant.IterationKeeps | src/orchestrator.rs:240-462 | every iteration, cancelled or not, keeps the invariant and never changes a terminal record |
| RunInvariant.RunKeeps | src/orchestrator.rs:240-471 | so does every run: attempts are numbered 1 to n and at most the limit, a process is held iff running, only the running attempt lacks an outcome, each attempt logs under its number, and states agree with those of the dependencies |
| RunInvariant.ReachableInv | src/orchestrator.rs:203-471 | the invariant holds in every reachable state of every run, so a running task always has a process handle |
| RunInvariant.StartedMeansDependenciesCompleted | src/orchestrator.rs:250-303 | in every reachable state a running, retrying, completed or failed task has all its dependencies completed |
| RunInvariant.RetryNeverSkipped | src/orchestrator.rs:652-669 | a queued retry is never skipped for a dependency, although the marking pass looks at it |
| RunInvariant.CompletedNotDoomed | src/orchestrator.rs:252-258 | no name is both completed and failed, skipped or aborted |
| RunInvariant.LaunchPointwise | src/orchestrator.rs:282-391 | the launch loop changes a record only if it is queued, due, its dependencies had completed before the pass, and the flag was not yet seen |
| RunInvariant.LaunchKeeps | src/orchestrator.rs:313-391 | launching keeps the books of one record: at most the permitted attempts, numbered in order, a process iff running |
| RunInvariant.PollKeeps | src/orchestrator.rs:393-462 | so does reaping it |
| RunInvariant.SequentialRunsOne | src/orchestrator.rs:302-304 | in sequential mode no reachable state has two running tasks |
| Passes.InterruptedIsCancelled | src/orchestrator.rs:282-391 | the launch loop interrupted before a task has done what it does if it finds the flag set there |
| Passes.AlwaysInv | src/orchestrator.rs:240-462 | the invariant holds at every instant between two tasks of every pass of every run |
| Passes.AlwaysOneAtATime | src/orchestrator.rs:302-304 | and in sequential mode at most one task is running at every such instant |
| RunInvariant.LaunchPromptIsExpansion | src/orchestrator.rs:319-336 | a prompt is launched as its expansion; skipping the expander when no opening pair occurs changes nothing |
| Turns.LaunchExactly | src/orchestrator.rs:282-391 | in either mode the launch loop acts on exactly the tasks that are due, have all dependencies completed, come before the flag is seen and before a panic, and in sequential mode find none running and start before any other; it leaves the others alone |
| Turns.LaunchIs | src/orchestrator.rs:306-391 | acted on, a delegated task is skipped; any other is started with its expanded prompt, with the attempt, process, log and time recorded, or fails as the expansion or the launch does |
| Turns.StartsWithExpansion | src/orchestrator.rs:319-349 | in an iteration a task whose placeholders are all replaced gets one more attempt, whose process is the one that launching exactly the expanded text gave, if any |
| Turns.OnlyExpandedStart | src/orchestrator.rs:282-391 | and no other task gets an attempt |
| Turns.PollIs | src/orchestrator.rs:393-462 | a poll completes a task iff the status is 0, fails or requeues it on any other status or a wait error, by the attempts left, and closes the attempt with that outcome and its duration in whole seconds |
| Turns.CompletesIff | src/orchestrator.rs:410-421 | an iteration completes a task iff its process is polled in it and has exited with status 0 |
| Turns.FailedAttempt | src/orchestrator.rs:352-391 | an attempt that could not be launched or ended badly is recorded with its cause, and the task fails for it if no attempt is left and waits for the next one otherwise |
| Turns.FailedIff | src/orchestrator.rs:319-462 | a task has failed after an iteration iff it had before, its prompt did not expand, or an attempt failed in it and none is left; and for that cause |
| Turns.CancelledIs | src/orchestrator.rs:672-694 | a cancelled iteration aborts every unfinished task, closing the attempts that run, and tells which had started |
| Turns.SkipIs | src/orchestrator.rs:640-670 | an uncancelled one skips a queued task for its dependencies iff some of them is doomed as it begins, and the reason lists those in the file's order |
| Turns.DelegatedIff | src/orchestrator.rs:306-317 | a queued task is skipped as delegated iff the launch loop acts on it and it names that peer |
| Turns.PanicsIff | src/orchestrator.rs:1191-1192 | an iteration aborts the process iff the launch loop gets to a prompt that asks for a log that cannot be cut |
| Histories.CompletedIff | src/orchestrator.rs:410-421 | a task completes in a run iff in some iteration its process is polled and has exited with status 0 |
| Histories.NeverCompleted | src/orchestrator.rs:410-444 | a task none of whose polls finds that is completed in no run |
| Histories.RunTells | src/orchestrator.rs:352-462 | in every run attempts are only added, a closed one is never changed, and completed, failed, retrying and aborted states agree with the last outcome |
| Histories.ResultIs | src/orchestrator.rs:497-513 | what is returned, with the numbers of failed, skipped and aborted tasks |
| Histories.CountsAreSizes | src/orchestrator.rs:824-838 | each of the seven counts is the number of tasks in that state |
| RunProgress.SomeTaskReady | src/orchestrator.rs:282-300 | if nothing runs, no timer is pending and marking changes nothing, an unfinished task whose dependencies completed exists; this is where acyclicity is used |
| RunProgress.LaunchActs | src/orchestrator.rs:282-391 | with nothing running and a ready task, the launch loop acts on some ready task, in either mode |
| RunProgress.IterationNeverGrows | src/orchestrator.rs:240-462 | no iteration increases the measure of remaining work |
| RunProgress.NotStuck | src/orchestrator.rs:240-462 | no reachable state is stuck: with unfinished tasks, no live process and no pending timer, one iteration strictly decreases the measure |
| RunProgress.WorkIsBounded | src/orchestrator.rs:240-471 | iterations that have nothing to wait for are paid for by the measure |
| RunProgress.RunTerminates | src/orchestrator.rs:240-471 | in any environment, a run still polling has spent all but twice the number of permitted attempts of its iterations waiting for a live process or a timer |
| RunProgress.StallChangesNothing | src/orchestrator.rs:240-462 | an uncancelled iteration that does no work changes no record, and every process it polled is still running |
| RunEnds.RetryQueuedWhen | src/orchestrator.rs:696-712 | a retry queued in an iteration is due within three seconds of that iteration's clock |
| RunEnds.NoLongStall | src/orchestrator.rs:240-462 | if every process ends within b polls and the clock passes three seconds in m iterations, an unfinished state does work within max(b + 1, m) iterations |
| RunEnds.FairRunEnds | src/orchestrator.rs:240-471 | in such an environment the loop of a valid file is left within max(b + 1, m) iterations for each launch and each end of each permitted attempt |
| RunOutcome.CancelledIterationOnlyAborts | src/orchestrator.rs:241-248 | an iteration that finds the flag set at its top aborts what is unfinished and does nothing else |
| RunOutcome.NoLaunchOnceSeen | src/orchestrator.rs:283-289 | from the task before which the flag is found set, nothing is launched in that iteration |
| RunOutcome.AtMostOneLateLaunch | src/orchestrator.rs:241-289 | let the flag be set at any instant, between some read and the next, be that in the same iteration or at the top of the next: the run starts the attempts it would have started had the flag been set before that read, and at most one more, that of the task behind the read |
| RunOutcome.OneReadApart | src/orchestrator.rs:282-391 | two launch loops in which the flag is set just before and just after one read differ in one task only, the one behind that read |
| RunOutcome.CancelledRunEnds | src/orchestrator.rs:241-471 | once a read finds the flag set, the loop is left by the end of the next iteration, and a loop left in the regular way leaves every task terminal |
| RunOutcome.EndedMeansTerminal | src/orchestrator.rs:467-469 | a finished run leaves no task running or queued |
| RunOutcome.UncancelledNeverAborts | src/orchestrator.rs:241-248 | without a cancellation no task is aborted |
| RunOutcome.SkippedDependsOnRoot | src/orchestrator.rs:640-670 | a task skipped for a dependency transitively depends on one that failed or was delegated |
| RunOutcome.DependentsAreSkipped | src/orchestrator.rs:640-670 | at the end, whatever lies on a dependency path to a failed or skipped task was skipped |
| RunOutcome.SkippedExactlyDependents | src/orchestrator.rs:640-670 | the one-level marking passes reach exactly the closure: at the end of an uncancelled run a task was skipped for a dependency iff it transitively depends on a failed or delegated one, and the other local tasks ran to an end |
| RunOutcome.CompletedHasOutput | src/orchestrator.rs:260-271 | a completed dependency is in the output map, with the log of its last attempt |
| RunOutcome.OutputsAreCompleted | src/orchestrator.rs:260-271 | and only completed tasks are |
| RunOutcome.OnlyReadsCanFail | src/orchestrator.rs:319-336 | in a valid file whose placeholders have dots, expansion at launch fails only if the log of some dependency cannot be read or cut |
| RunOutcome.ExpandsIffDotted | src/orchestrator.rs:319-336 | when every log can be read and cut, a ready task of a valid file expands iff all its placeholders have a dot |
| RunOutcome.UndottedIsAccepted | src/orchestrator.rs:1088 | validation accepts a file whose one task has the prompt `{{x}}` |
| RunOutcome.UndottedNeverStarts | src/orchestrator.rs:319-336 | in no reachable state of any run has a task with an undotted placeholder started an attempt |
| RunOutcome.UndottedFailsAtLaunch | src/orchestrator.rs:319-336 | a task with an undotted placeholder fails when it is launched, without an attempt |
| RunOutcome.RetriesBackOff | src/orchestrator.rs:696-712 | after its n-th failed attempt a task is held back for min(n, 3) seconds and is due from then on |
| RunOutcome.RefusedLaunchBacksOff | src/orchestrator.rs:352-375 | so is one whose process could not be started |
| RunOutcome.CountsAddUp | src/orchestrator.rs:824-838 | the counts partition the tasks |
| RunOutcome.SuccessMeansAllCompleted | src/orchestrator.rs:497-513 | a finished run returns success iff every task completed, and an interruption iff one was aborted |
| RunOutcome.UncancelledSuccessIff | src/orchestrator.rs:240-513 | an uncancelled run of a valid file returns success iff no task failed and none was delegated |
| LogFiles.LogNameInjective | src/orchestrator.rs:738-740 | a log's file name determines the slug and the attempt number, whatever the slug contains |
| LogFiles.SlugKeeps | src/orchestrator.rs:964-981 | a slug is the name's letters, in lower case, digits, dashes, underscores and dots, with a dash for each whitespace character and nothing for any other, or `task` if that is empty |
| LogFiles.SharingNeedsEqualSlugs | src/orchestrator.rs:738-740 | in every reachable state, attempts of two tasks share a log file only if the tasks' slugs are equal |
| LogFiles.OwnLogsDiffer | src/orchestrator.rs:738-740 | the attempts of one task never share a log file |
| LogFiles.LogsCollideIff | src/orchestrator.rs:738-740 | the latest logs of two tasks that run or completed are one file iff slugs and attempt numbers agree |
| SmoothRuns.StartedIsLaunchable | src/orchestrator.rs:282-336 | a task that started an attempt is neither delegated nor has an undotted placeholder, and neither has anything it transitively depends on |
| SmoothRuns.LaunchableCompletes | src/orchestrator.rs:240-471 | when all launches and processes go well, every such task completes in its first attempt |
| SmoothRuns.CanCompleteIff | src/orchestrator.rs:240-471 | a task of a valid file completes in some run iff it is such a task |
| SmoothRuns.BadLaunch | src/orchestrator.rs:319-336 | when no log can be cut, launching a ready task panics iff its first placeholder has a dot |
| LeftRuns.CrashesIff | src/orchestrator.rs:319-336 | some run of a valid file is aborted by a panic, in either mode, iff some undelegated task's first placeholder has a dot and all it transitively depends on is local |
| LeftRuns.LeftUnfinished | src/orchestrator.rs:464-471 | a run that was left holds an unfinished task only if a panic or a failed report ended it, in an iteration that did not find the flag set at its top |
| LeftRuns.ExitIs | src/orchestrator.rs:464-471 | a loop is left by the first of a panic, a failed report and all tasks terminal that applies after its last iteration, and all reports before were written |
| LeftRuns.CancelledRunLeaves | src/orchestrator.rs:241-471 | once a read in iteration k finds the flag set, the loop is left by the end of iteration k + 1, and every task is terminal unless a panic or a failed report ended it by the end of iteration k |
| LeftRuns.FailedReportLeavesRunning | src/orchestrator.rs:464-465 | such a run exists: the flag is set in the launch loop, the report of that iteration fails, and a task is left running |
| LogFiles.LogsSharedIff | src/orchestrator.rs:738-740 | two tasks of a valid file share a log in some run, in either mode, iff their slugs are equal and both can be launched, which shows before the run |
| LogContents.OwnOutputIff | src/orchestrator.rs:983-998 | when a task of a valid file is launched, a placeholder is sure to be replaced by what the last attempt of the task it names printed iff no other attempt was running on that attempt's file when it was launched and none has been launched on it since |
| LogContents.AloneIsSure | src/orchestrator.rs:983-998 | it is always sure if no other launchable task has the named task's slug |
| LogContents.SequentialQuotesLast | src/orchestrator.rs:302-304 | in sequential mode it is sure to be replaced by what the last attempt launched on that file printed, whichever task's that is |
| LogContents.SequentialNeverBeside | src/orchestrator.rs:302-304 | in sequential mode no attempt is launched while another runs on its file |
| LogContents.SoleWriterIff | src/orchestrator.rs:992-996 | the attempts that may have written to a file since its last truncation are this one alone iff it was launched with none running there and none was launched there since |
| LogContents.LaunchOnKeeps | src/orchestrator.rs:338-349 | a launch keeps the account of writers in order: writers log to their file, every log has a writer, no attempt is launched twice |
| LogContents.LaunchOpens | src/orchestrator.rs:983-998 | a launch that starts an attempt leaves that attempt's file to it and to exactly the attempts on the file that are not over; any other launch leaves the files alone |
| LogContents.SureLaunch | src/orchestrator.rs:319-338 | the text that a task's process is launched with has what is captured of the attempt's output in the place of a placeholder that is sure to quote it |
| LogContents.LeadsKeeps | src/orchestrator.rs:240-471 | so does every run |
| LogContents.DiskIterationTasks | src/orchestrator.rs:240-462 | keeping that account changes nothing about the records |
| Misquotes.OtherOutputQuoted | src/orchestrator.rs:260-271 | for two independent tasks with one slug and a third that waits for both and quotes the first, there is a sequential run in which the third is sure to be given the second one's output |
| Misquotes.QuotingFile | src/orchestrator.rs:964-981 | such a valid file: `A!`, `a`, and `c` with the prompt `{{A!.stdout}}` |
| LogFiles.AloneMeansSole | src/orchestrator.rs:738-740 | in every run no other attempt logs to a task's files if no other launchable task has its slug |
| SmoothRuns.ParallelLaunchesReady | src/orchestrator.rs:282-391 | in parallel mode one pass launches every ready task, unless the flag is seen or a prompt panics |
| LogFiles.BothRunOnOneLog | src/orchestrator.rs:964-981 | the valid file of two independent tasks named `A!` and `a` has both running on one log file after one parallel iteration |
| TokenBucket.LevelIsLeastHeadroom | src/rate_limit.rs:122-132 | on any clock, the incrementally kept level is at most the headroom of every window of the history and equal to that of one |
| TokenBucket.AdmittedIffEveryWindowAllows | src/rate_limit.rs:127-132 | on any clock, a call is admitted iff admitting it keeps every window within capacity plus refill |
| TokenBucket.WindowBound | src/rate_limit.rs:122-132 | on any clock, no window of calls admits more than the capacity plus what the clock moved forward over it |
| TokenBucket.BurstAdmitted | src/rate_limit.rs:127-132 | calls at one instant on a full bucket are admitted until it is empty |
| TokenBucket.MonotoneElapsed | src/rate_limit.rs:122-124 | on a clock that does not step back, the forward movement is the time that passed |
| TokenBucket.TokensInRange | src/rate_limit.rs:125-128 | the stored tokens stay between zero and the capacity, on any clock |
| RateLimit.LevelIsMinOverWindows | src/rate_limit.rs:122-126 | on any clock, the level is the minimum over all earlier calls i of capacity + refill since t_i - admissions since i, and the capacity |
| RateLimit.RefilledSinceInSeconds | src/rate_limit.rs:119-125 | refill since a call is the rate times the seconds the clock moved forward, which without steps back is rate * (now - t_i) |
| RateLimit.NoWindowExceedsBound | src/rate_limit.rs:111-133 | on any clock, a stretch of calls on a key admits at most capacity + rate * forward seconds |
| RateLimit.MonotoneBetween | src/rate_limit.rs:122-126 | without steps back, the forward seconds of a stretch are its length |
| RateLimit.StepBackAdmitsMore | src/rate_limit.rs:122-126 | with one they are not: a bucket of one, refilling one a second, admits three calls within one second of elapsed time |
| RateLimit.ElapsedBoundIff | src/rate_limit.rs:122-132 | for given call times, admissions of every stretch stay within capacity + rate * elapsed time, at every real capacity and rate, iff the times never step back |
| RateLimit.LimiterBoundIff | src/rate_limit.rs:111-133 | for any one limiter, at its own capacity and rate, that bound holds on every clock whose steps back are at most b seconds iff b is zero |
| RateLimit.RefusedIffSomeWindowFull | src/rate_limit.rs:127-132 | on any clock, a call is refused iff admitting it would break that bound for some window |
| RateLimit.CallIsExplained | src/rate_limit.rs:122-132 | every call is decided as the key's history says, and leaves the bucket that the longer history describes |
| RateLimit.FirstCallIsExplained | src/rate_limit.rs:113-121 | the first call finds a full bucket |
| RateLimit.RetryAfterIsLeast | src/rate_limit.rs:140-152 | on any clock, a hint is given iff a call now would be refused; it is between 1 and the window, no call in fewer seconds is admitted, and one in exactly that many is iff the rounding makes up for how far the query's clock is behind the last call |
| RateLimit.RetryAfterIsExact | src/rate_limit.rs:140-152 | if it is not behind, the hint is the least whole number of seconds after which a call is admitted |
| RateLimit.HintTooEarly | src/rate_limit.rs:140-152 | asked five seconds before the call that emptied a bucket of one, the hint is one second, after which no call is admitted |
| RateLimit.RateLimiter.constructor | src/rate_limit.rs:80-86 | no buckets, and zero capacity or window raised to one |
| RateLimit.RateLimiter.TryAcquire | src/rate_limit.rs:99-101 | as below, at the limiter's own capacity |
| RateLimit.RateLimiter.TryAcquireWithCapacity | src/rate_limit.rs:111-133 | admits exactly when the key's call history does, records the call, leaves every other key's bucket alone, and uses the capacity argument only on the key's first call |
| RateLimit.RateLimiter.RetryAfterSecs | src/rate_limit.rs:140-152 | none for an unknown key, otherwise the bucket's own hint; changes no state |
| RateLimit.Take | src/rate_limit.rs:122-132 | refill, then take a token if there is one |
| RateLimit.Hint | src/rate_limit.rs:143-151 | the computation of the hint |
| Scopes.ParseInvertsRender | src/access/scope.rs:170-224 | parsing a displayed scope gives it back, whatever the default qualifier |
| Scopes.ParsedIsValid | src/access/scope.rs:170-218 | whatever is accepted is a valid scope, and its rendering parses to it again |
| Scopes.RenderInjective | src/access/scope.rs:192-224 | different valid scopes are displayed differently |
| Scopes.RenderPlain | src/access/scope.rs:190-218 | a displayed scope contains no whitespace, hence no newline |
| Scopes.ValidScopeIff | src/access/scope.rs:190-218 | a qualifier is accepted iff it has 1 to 128 letters, digits, dashes, underscores and dots, and no two dots in a row |
| Scopes.ParsesIff | src/access/scope.rs:148-185 | a text is read as a scope iff it spells the verb and a good qualifier apart by a colon, or is the bare verb and the default qualifier is that one |
| Scopes.RefusesIff | src/access/scope.rs:148-218 | each refusal comes exactly with its own condition, the qualifier being looked at before the verb |
| Scopes.VerbsAre | src/access/scope.rs:148-168 | which verb is read as which scope |
| Strings.SortKeeps | src/access/token.rs:51 | sorting sorts, and loses and adds nothing |
| Strings.SortedUnique | src/access/token.rs:51 | the sorted sequence depends on the multiset only |
| Strings.StrLeIff | src/access/token.rs:51 | the order is that of the first character at which two strings differ, a prefix coming first |
| Strings.LinesOfJoin | src/access/token.rs:52 | splitting at newlines inverts joining newline-free lines |
| Strings.DecimalInjective | src/access/token.rs:52 | different numbers are printed differently |
| Strings.ValueOfDecimal | src/access/token.rs:52 | the decimal digits of a number have its value |
| Strings.DecimalIsShort | src/access/token.rs:52 | they are digits only, without a leading zero |
| Tokens.PayloadLines | src/access/token.rs:49-53 | the lines of the signed payload are exactly the id, the sorted scopes and the expiry |
| Tokens.PayloadLossless | src/access/token.rs:43-53 | two payloads are equal iff the ids, the multisets of scopes and the expiries are |
| Tokens.ParseTokenText | src/access/token.rs:75-110 | a token parses to its id and MAC, underscores in the id notwithstanding |
| Tokens.ParseInvertsMint | src/access/token.rs:63-110 | parsing a minted token gives the id and the MAC it was minted with |
| Tokens.ParsedIsToken | src/access/token.rs:80-110 | a text parses iff, up to surrounding whitespace, it is the token of a valid id and a lower-case hex MAC |
| Tokens.GrantIdIff | src/access/mod.rs:136-143 | an id is valid iff it has 1 to 64 letters, digits, dashes and underscores; the test for two dots in a row adds nothing |
| Tokens.TokenIff | src/access/token.rs:80-110 | a text parses to an id and a MAC iff, trimmed, it is the prefix, such an id, an underscore and 32 lower-case hex digits |
| Grants.VerifyOnlyLogs | src/access/grant.rs:444-555 | verifying writes no grant and no tombstone; a denial appends one audit entry with the returned reason and the given time, and nothing else is logged |
| Grants.CreateKeepsOthers | src/access/grant.rs:305-325 | creation succeeds iff the id is valid and unused, never overwrites, and what it stored loads back |
| Grants.RevokedNeverVerifies | src/access/grant.rs:411-422 | after a revocation no token for that id verifies, whatever its record says |
| Grants.RevokeIdempotent | src/access/grant.rs:404-422 | revoking again changes nothing and answers the same |
| Grants.FirstFlagWins | src/access/grant.rs:714-732 | flagging a flagged grant changes nothing, so the first reason and time stay |
| Grants.LoadIs | src/access/grant.rs:357-377 | when a grant is absent, when unreadable, and what loads otherwise |
| Grants.UseWrites | src/access/grant.rs:687-712 | recording a use changes the time of the last use and the saturating count and nothing else of the grant, writes no other file, and logs it |
| Grants.ChargeWrites | src/access/grant.rs:571-655 | a charge changes the day and the day's counter and nothing else, or is refused with its log entry when the day's allowance is used up |
| Grants.FlagWrites | src/access/grant.rs:722-732 | the first flag sets time and reason and nothing else |
| Grants.RevokeWrites | src/access/grant.rs:411-422 | a revocation places the tombstone and marks the record and changes nothing else |
| Grants.NothingToWrite | src/access/grant.rs:571-732 | on an absent or unreadable grant nothing is written, and only a charge is logged |
| GrantStores.GrantStore.Create | src/access/grant.rs:314-325 | refuses an invalid or existing id, otherwise writes the record |
| GrantStores.GrantStore.Update | src/access/grant.rs:328-334 | overwrites the record of a valid id |
| GrantStores.GrantStore.Load | src/access/grant.rs:357-377 | absent, unreadable, or the record with its tombstone applied |
| GrantStores.GrantStore.List | src/access/grant.rs:381-402 | newest first, exactly the readable grants, each once, with the tombstone of its own id applied; a corrupt file hides nothing else |
| GrantStores.GrantStore.Revoke | src/access/grant.rs:411-422 | places the tombstone and answers a revoked record; an absent or unreadable grant is an error and changes nothing |
| GrantStores.GrantStore.VerifyDetailed | src/access/grant.rs:487-555 | the checks in their order, each denial logged with its reason; grants and tombstones are never written, and a success means a token of that record's authority, unrevoked, unexpired and with the scope |
| GrantStores.GrantStore.ChargeDailyBudget | src/access/grant.rs:571-655 | rolls the day forward, refuses or counts one charge, and logs every refusal with its reason; the grant reloads with nothing else changed |
| GrantStores.GrantStore.RecordQueryUse | src/access/grant.rs:687-712 | counts one use and logs it, after the record was written; the grant reloads with every other field as it was |
| GrantStores.GrantStore.FlagGrant | src/access/grant.rs:722-732 | sets time and reason if the grant is not flagged yet |
| GrantStores.GrantStore.AppendAudit | src/access/grant.rs:798-828 | appends one entry and changes nothing else |
| GrantStores.ListingInsert | src/access/grant.rs:388-400 | adding one more readable file at its place keeps the listing complete, duplicate-free and newest first |
| GrantProcesses.StepKeeps | src/access/grant.rs:274-303 | every step of every process keeps the store's invariant, and tombstones and issued grants only accumulate |
| GrantProcesses.RunKeeps | src/access/grant.rs:274-303 | so does any interleaving of steps |
| GrantProcesses.AuthorityFrozen | src/access/grant.rs:278-300 | under any interleaving every copy of a grant, on disk or in flight, keeps its issued id, scopes, expiry and limits |
| GrantProcesses.LoadsRevokedIffTombstoned | src/access/grant.rs:357-377 | in a reachable state a grant loads as revoked iff its tombstone exists, whatever the field on disk says |
| GrantProcesses.RevocationSticks | src/access/grant.rs:294-300 | once a tombstone exists, in every later state the grant loads as revoked, and every listing has an entry for it and only revoked ones, despite stale whole-record writes |
| GrantProcesses.ListingShowsTombstones | src/access/grant.rs:381-402 | in a reachable state every listing shows each grant under its own id, revoked iff tombstoned |
| GrantProcesses.ConsultSeesTombstone | src/access/grant.rs:363-376 | a copy is revoked after consulting the tombstone iff one existed at that moment |
| GrantProcesses.IssuedTokenVerifiesIff | src/access/grant.rs:487-555 | in every reachable state the issued token verifies iff there is no tombstone, it has not expired, and the scope was issued |
| GrantProcesses.LoadedTokenVerifiesIff | src/access/grant.rs:487-555 | the same for a process with its own copy: only a tombstone visible to its load counts |
| GrantProcesses.EditedRecordFailsMac | src/access/grant.rs:525-530 | unless the two payloads collide, an issued token fails the MAC check iff the record's scopes or expiry were edited |
| GrantDenials.DeniedIff | src/access/grant.rs:487-555 | verification refuses with a reason iff that reason's own condition on the files, the token, the scope and the time holds, those before it not holding; it names the grant only after the MAC was right |
| GrantDenials.AcceptedIff | src/access/grant.rs:487-555 | it returns a record iff the token is authentic for it, it is not withdrawn nor expired and has the scope |
| GrantDenials.DenialLogged | src/access/grant.rs:492-551 | a denial appends one entry with the time, the claimed id, the reason and, for a missing scope, the scope |
| GrantDenials.IssuedTokenDenied | src/access/grant.rs:532-551 | in every reachable state the issued token is refused as revoked iff tombstoned, else as expired iff its time is over, else for a missing scope iff it was not issued, and for no other reason |
| GrantProcesses.LoadedIsLoad | src/access/grant.rs:357-377 | reading and consulting with nothing in between is the store's load |
| GrantProcesses.SoloCharge | src/access/grant.rs:571-655 | an undisturbed process charges as the store operation does |
| GrantProcesses.SoloUse | src/access/grant.rs:687-712 | and records a use as it does |
| GrantProcesses.SoloFlag | src/access/grant.rs:722-732 | and flags as it does |
| GrantProcesses.SoloRevocation | src/access/grant.rs:411-422 | and revokes as it does |
| GrantProcesses.SoloVerify | src/access/grant.rs:487-555 | an undisturbed verification writes no file |
| GrantBudget.RecordTracksDay | src/access/grant.rs:607-617 | after any mix of charges, recorded uses and flags the stored day is the highest day charged so far, and the counter counts that day's successful charges |
| GrantBudget.ChargeCountsDown | src/access/grant.rs:624-654 | a charge goes through iff that day's allowance is not used up, and the returned remainder counts down exactly |
| GrantBudget.BudgetHolds | src/access/grant.rs:607-640 | on any clock, backward steps included, successful charges per highest day never exceed the budget |
| GrantBudget.DailyLimit | src/access/grant.rs:607-640 | when charges come in order, no UTC day of 86400000 ms lets through more than the budget, 0 counting as 1 |
| GrantBudget.NewGrantAllows | src/access/grant.rs:843-866 | a new grant lets through 500 charges on whichever day it is charged first |
| GrantBudget.StoreFollows | src/access/grant.rs:571-732 | charging, recording and flagging through the store keeps the stored record in step with that sequence |
| GrantBudget.StoreAnswersCharge | src/access/grant.rs:571-655 | the store's answer is the exact remainder while the day's allowance lasts, and from then on a refusal that writes nothing but its log entry |
| Walker.FromLines | src/brain/autopsy.rs:138-265 | the calls are the transcript's tool uses in order, the k-th paired with the k-th result that arrived while a use was pending; the read and edit histories hold exactly the marks of the files accessed, in order; edit counts and model are those of the messages; total and curve are the sums of all input, cache reads, cache creations and output reported so far |
| Walker.TotalIsSum | src/brain/autopsy.rs:166-173 | the running total is the sum of the input, plus those of the cache reads, the cache creations and the output |
| Walker.WalkMessage | src/brain/autopsy.rs:164-238 | one message keeps the walk's variables in step with the transcript read so far |
| Walker.WalkBlocks | src/brain/autopsy.rs:181-234 | its blocks are paired first in, first out |
| Walker.Flush | src/brain/autopsy.rs:243-252 | uses left pending become calls without a result |
| Walker.CallsAreUses | src/brain/autopsy.rs:138-265 | no tool use is lost, duplicated or reordered, each keeps the marks it was made at, and only answered calls carry a result or an error |
| Walker.NothingDroppedIff | src/brain/autopsy.rs:216-230 | no result is dropped iff no prefix of the transcript holds more results than uses |
| Walker.EarlyResultShiftsPairing | src/brain/autopsy.rs:216-230 | a failing result before any use is dropped, and the use is paired with the next, successful one |
| Walker.RecordKeeps | src/brain/autopsy.rs:191-214 | recording one use keeps a history exact |
| Walker.MarksInOrder | src/brain/autopsy.rs:166-190 | token marks and message indices never decrease along the uses, and never pass the session's totals |
| Walker.WalkMarksOk | src/brain/autopsy.rs:138-265 | so the calls of any walked transcript have nondecreasing marks bounded by the total |
| Transcripts.MessagesPicked | src/brain/autopsy.rs:156-164 | the messages are those of the lines that hold one, in order |
| Transcripts.LastModelIs | src/brain/autopsy.rs:175-177 | the model is that of the last message that names one |
| Transcripts.StreamOfMessage | src/brain/autopsy.rs:181-234 | the stream goes through each message's tool uses and results in order, marked with its index and all tokens up to and including it |
| Transcripts.UsesComeFrom | src/brain/autopsy.rs:183-190 | each use is a block of the message of its index, and its mark is the token curve there |
| Transcripts.AsManyUses | src/brain/autopsy.rs:181-190 | there are as many uses as tool-use blocks in the messages |
| Transcripts.AnswersLeast | src/brain/autopsy.rs:216-230 | the number of results that are paired is the least, over all cuts of the stream, of the uses before and the results after the cut |
| Transcripts.EditCountIs | src/brain/autopsy.rs:204-213 | a message's edit count is the number of its blocks that use an editing tool |
| Transcripts.HistoryIs | src/brain/autopsy.rs:191-214 | a history holds a file iff some use of one of those tools accessed it, with the marks of exactly those uses, in order |
| Detectors.DetectErrorCascades | src/brain/autopsy.rs:273-336 | the findings are, in order and disjoint, exactly the maximal runs of two or more consecutive errors of one tool; it panics exactly when the first error text of such a run is over 120 bytes with byte 120 inside a character |
| Detectors.DetailPanicsIff | src/brain/autopsy.rs:309-317 | quoting an error panics exactly on such a text |
| Detectors.CascadeThatPanics | src/brain/autopsy.rs:309-317 | such a cascade exists: two errors of one tool, the first quoting 119 ASCII characters and a two-byte one |
| Detectors.ChainLength | src/brain/autopsy.rs:289-294 | the inner loop finds the end of a maximal run |
| Detectors.Report | src/brain/autopsy.rs:296-330 | the finding describes its run |
| Detectors.MaximalRunFrom | src/brain/autopsy.rs:278-333 | two maximal runs that share a call are one |
| Detectors.AddRun | src/brain/autopsy.rs:296-332 | jumping past a run misses no other |
| Detectors.CascadeWasteBounded | src/brain/autopsy.rs:297-299 | on a walked transcript the cascades' wasted tokens sum to at most the session's total |
| Detectors.DetectContextBloat | src/brain/autopsy.rs:474-520 | the findings are disjoint windows of 8 messages in order, each qualifying, and every qualifying window starts inside a reported one |
| Detectors.AtMostSixBloats | src/brain/autopsy.rs:493-513 | whatever the transcript there are at most six of them |
| Detectors.BloatUses | src/brain/autopsy.rs:485-513 | n findings together exceed n times 15% of the total, measured on the curve |
| Detectors.WalkCurveOk | src/brain/autopsy.rs:165-173 | the walker's curve is nondecreasing and bounded by the total, as the bound on findings needs |
| Detectors.PercentAbove | src/brain/autopsy.rs:489-494 | comparing the percentage is comparing the token counts |
| Findings.CascadeTells | src/brain/autopsy.rs:296-330 | each cascade reported of a walked transcript gives its run's length, tool, messages and tokens, the severity by its length, and the first error, whole or as its first 120 bytes |
| Findings.WindowIs | src/brain/autopsy.rs:486-488 | what a window of the curve spans is what its 8 messages report |
| Findings.BloatTells | src/brain/autopsy.rs:474-520 | each finding is of 8 messages without an edit that report over 15% of all tokens, critical over 30%; and every such 8 messages start inside a reported one |
| Costs.ComputeCostBreakdown | src/brain/autopsy.rs:523-586 | productive and retry tokens are the sums of the spans after the calls that succeeded and failed; wasted reads and undos are sums over the files of the two histories; the efficiency is the productive share |
| Costs.WastedReads | src/brain/autopsy.rs:545-555 | the loop over the read history sums 500 tokens for every read but the first of each file never edited, in whatever order the map yields the files |
| Costs.ReadWasteCounts | src/brain/autopsy.rs:545-555 | which is 500 tokens for each use in the transcript that reads a file read before and never edited |
| Costs.HistoryUnique | src/brain/autopsy.rs:191-214 | the transcript determines the history |
| Costs.WastedUndo | src/brain/autopsy.rs:558-569 | the loop over the edit history sums a quarter of the span of each file edited four times or more |
| Costs.UndoWasteBounded | src/brain/autopsy.rs:558-569 | on a walked transcript no such span saturates, and each file accounts for at most a quarter of the session |
| Costs.SumRemove | src/brain/autopsy.rs:546 | a sum over a map does not depend on the order of its files |
| Costs.SpansTelescope | src/brain/autopsy.rs:529-542 | after n calls the two sums add up to what the session used since the first call |
| Costs.CostConserves | src/brain/autopsy.rs:523-586 | productive plus retry tokens equal the total minus the first call's mark, no subtraction saturates, and the clamp on the efficiency changes nothing |
| Findings.FlipMoves | src/brain/autopsy.rs:529-542 | turning one call's error flag over moves exactly the tokens after it from one sum to the other |
| Findings.SpansAre | src/brain/autopsy.rs:529-542 | the sum for erring calls is zero if none errs, and everything since the first call if all do; so for the others |
| Findings.EfficiencyIs | src/brain/autopsy.rs:571-576 | the efficiency is the productive share of all tokens in percent |
| Findings.RereadsCost | src/brain/autopsy.rs:545-555 | wasted reads are 500 tokens for each use that reads a file which a use before it read and none edits |
| Findings.UndoCostIs | src/brain/autopsy.rs:558-569 | a file edited four times or more costs a quarter of the tokens between its first and last edit, rounded down |

## Left out

- Process spawning, log pumps and log tails, stderr logs, printing, the JSON reports, notifications and the Ctrl-C handler: they appear only as the environment's answers (launch, exit, run directory made or not, report written or not, flag seen).
- A task's `cwd` and `resume`: no decision depends on them.
- A log pump that lags behind its process: `LogContents` takes a log to be truncated at the launch and complete once the attempt is over; every other theorem lets a log hold anything.
- Two reads of one log for one prompt are one reading.
- AloneIsSure: is sufficient; which valid files have some run that misquotes a placeholder depends on launch order and retries and is not characterised.
- Several clock readings within the handling of one task in one pass are one reading.
- Message texts of states and errors are constructors instead of strings.
- ResolvedMaxAttempts: models release builds, where the addition wraps around; a build with overflow checks panics instead.
- Floating-point rounding in the rate limiter and in percentages: `real` numbers are used.
- The limiter's mutex: calls are atomic.
- HMAC-SHA256, its truncation and the constant-time comparison: the MAC is any function from key and payload to 32 hex digits.
- Secret generation, file modes, the temp-file rename and `HOME` handling: a write is atomic.
- Failures of the file system while writing grants, tombstones or audit lines.
- Concurrent creation of one grant id: creation is one step, as the code documents the race as a lost grant.
- The audit entries' question, cited and classification fields, and reading the audit log back.
- BudgetHolds: speaks of charges, uses and flags made one after the other, which the code requires of its callers; charges by unsynchronised processes may overwrite each other's counter.
- A transcript line's JSON decoding: lines come parsed, and of a tool's input only the `file_path` is looked at.
- FromLines: token sums are unbounded integers and do not wrap at 64 bits.
- DetectContextBloat: takes curve and edit counts of equal length, as the walker always builds them.
- `detect_wasted_reads`, `detect_undo_redo_loops` and `compute_quality_score`: scores without a specification to hold them to.
- Report formatting, the command line, configuration, policy merging, the other detectors, the network and the user interface.
