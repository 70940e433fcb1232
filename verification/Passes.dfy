/** The states inside an iteration: each pass over the tasks, interrupted before any of them. */
module Passes {
  import opened TaskFiles
  import opened TaskRuns
  import opened RunInvariant

  // ---------------------------------------------------------------- interrupted passes

  /** A pass from `ts` to `us` that has handled the tasks before `n`. */
  function Partly(ts: seq<TaskRun>, us: seq<TaskRun>, n: nat): seq<TaskRun>
    requires |us| == |ts| && n <= |ts|
  {
    us[..n] + ts[n..]
  }

  /** The launch loop from task `i` on, interrupted before task `n`. */
  function LaunchUpto(ts: seq<TaskRun>, i: nat, n: nat, running: nat, snap: Snapshot, obs: Observation): (r: seq<TaskRun>)
    requires i <= n <= |ts|
    ensures |r| == |ts|
    decreases n - i
  {
    if i == n then ts
    else if Queued(ts[i].state) && CancelBefore(obs, i) then ts
    else if !Ready(ts[i], i, snap, obs) then LaunchUpto(ts, i + 1, n, running, snap, obs)
    else if !snap.parallel && running > 0 then ts
    else
      var t := LaunchOne(ts[i], i, snap.outputs, obs);
      if Panicked(t) then ts[i := t]
      else LaunchUpto(ts[i := t], i + 1, n, if t.state.Running? then running + 1 else running, snap, obs)
  }

  /** Interrupted before the end, the loop is the whole loop. */
  lemma {:induction false} LaunchUptoEnd(ts: seq<TaskRun>, i: nat, running: nat, snap: Snapshot, obs: Observation)
    requires i <= |ts|
    ensures LaunchUpto(ts, i, |ts|, running, snap, obs) == LaunchFrom(ts, i, running, snap, obs)
    decreases |ts| - i
  {
    if i < |ts| && !(Queued(ts[i].state) && CancelBefore(obs, i)) {
      if !Ready(ts[i], i, snap, obs) {
        LaunchUptoEnd(ts, i + 1, running, snap, obs);
      } else if snap.parallel || running == 0 {
        var t := LaunchOne(ts[i], i, snap.outputs, obs);
        if !Panicked(t) {
          LaunchUptoEnd(ts[i := t], i + 1, if t.state.Running? then running + 1 else running, snap, obs);
        }
      }
    }
  }

  /** The same environment, but the flag is found set before task `n` at the latest. */
  function StopAt(obs: Observation, n: nat): Observation {
    obs.(cancelFrom := Min(obs.cancelFrom, n + 1))
  }

  /** To interrupt the loop is to let it find the flag set: so what holds of passes holds of interrupted ones. */
  lemma {:induction false} InterruptedIsCancelled(
    ts: seq<TaskRun>, i: nat, n: nat, running: nat, snap: Snapshot, obs: Observation)
    requires i <= n <= |ts|
    ensures LaunchUpto(ts, i, n, running, snap, obs) == LaunchFrom(ts, i, running, snap, StopAt(obs, n))
    decreases n - i
  {
    var stop := StopAt(obs, n);
    if i == n {
      forall j | 0 <= j < |ts| ensures LaunchFrom(ts, i, running, snap, stop)[j] == ts[j] {
        LaunchPointwise(ts, i, running, snap, stop, j);
      }
    } else if !(Queued(ts[i].state) && CancelBefore(obs, i)) {
      if !Ready(ts[i], i, snap, obs) {
        InterruptedIsCancelled(ts, i + 1, n, running, snap, obs);
      } else if snap.parallel || running == 0 {
        var t := LaunchOne(ts[i], i, snap.outputs, obs);
        assert t == LaunchOne(ts[i], i, snap.outputs, stop);
        if !Panicked(t) {
          InterruptedIsCancelled(ts[i := t], i + 1, n, if t.state.Running? then running + 1 else running, snap, obs);
        }
      }
    }
  }

  // ---------------------------------------------------------------- the states inside an iteration

  /** Where an iteration is: in which pass, and before which task. */
  datatype Place = Aborting(n: nat) | Marking(n: nat) | Launching(n: nat) | Polling(n: nat)

  /** The records at a place of the iteration that starts from `ts`. */
  function Inside(ts: seq<TaskRun>, parallel: bool, obs: Observation, at: Place): (vs: seq<TaskRun>)
    requires at.n <= |ts| && (at.Aborting? ==> CancelAtTop(obs))
    ensures |vs| == |ts|
  {
    var first := if CancelAtTop(obs) then AbortedRuns(ts, obs.abortClock) else ts;
    var swept := Swept(ts, obs);
    var launched := LaunchPass(swept, parallel, obs);
    match at
    case Aborting(n) => Partly(ts, AbortedRuns(ts, obs.abortClock), n)
    case Marking(n) => Partly(first, Marked(first), n)
    case Launching(n) => LaunchUpto(swept, 0, n, CountRunning(swept), SnapshotOf(swept, parallel), obs)
    case Polling(n) => Partly(launched, Polled(launched, obs), n)
  }

  /** A pass that keeps each record in order keeps the invariant wherever it is interrupted. */
  lemma {:induction false} PartlyKeeps(file: TaskFile, ts: seq<TaskRun>, us: seq<TaskRun>, n: nat)
    requires Inv(file, ts) && |us| == |ts| && n <= |ts|
    requires forall i :: 0 <= i < |ts| ==> StepKeeps(ts[i], us[i], CompletedNames(ts), DoomedNames(ts))
    ensures Inv(file, Partly(ts, us, n)) && AllEvolve(ts, Partly(ts, us, n))
  {
    var vs := Partly(ts, us, n);
    forall i | 0 <= i < |ts|
      ensures Evolves(ts[i], vs[i]) && Bookkeeping(vs[i]) && Placed(vs[i], CompletedNames(ts), DoomedNames(ts))
    {
      assert RecordOk(file, ts, i);
      assert vs[i] == if i < n then us[i] else ts[i];
      assert StepKeeps(ts[i], us[i], CompletedNames(ts), DoomedNames(ts));
    }
    PassKeeps(file, ts, vs);
  }

  lemma {:induction false} AbortingKeeps(file: TaskFile, ts: seq<TaskRun>, now: nat, n: nat)
    requires Inv(file, ts) && n <= |ts|
    ensures Inv(file, Partly(ts, AbortedRuns(ts, now), n))
  {
    forall i | 0 <= i < |ts| ensures StepKeeps(ts[i], AbortedRuns(ts, now)[i], CompletedNames(ts), DoomedNames(ts)) {
      assert RecordOk(file, ts, i);
      AbortKeeps(ts[i], now, CompletedNames(ts), DoomedNames(ts));
    }
    PartlyKeeps(file, ts, AbortedRuns(ts, now), n);
  }

  lemma {:induction false} MarkingKeeps(file: TaskFile, ts: seq<TaskRun>, n: nat)
    requires Inv(file, ts) && n <= |ts|
    ensures Inv(file, Partly(ts, Marked(ts), n))
  {
    forall i | 0 <= i < |ts| ensures StepKeeps(ts[i], Marked(ts)[i], CompletedNames(ts), DoomedNames(ts)) {
      assert RecordOk(file, ts, i);
      MarkKeeps(ts[i], CompletedNames(ts), DoomedNames(ts));
    }
    PartlyKeeps(file, ts, Marked(ts), n);
  }

  lemma {:induction false} PollingKeeps(file: TaskFile, ts: seq<TaskRun>, obs: Observation, n: nat)
    requires Inv(file, ts) && n <= |ts|
    ensures Inv(file, Partly(ts, Polled(ts, obs), n))
  {
    forall i | 0 <= i < |ts| ensures StepKeeps(ts[i], Polled(ts, obs)[i], CompletedNames(ts), DoomedNames(ts)) {
      assert RecordOk(file, ts, i);
      PollKeeps(ts[i], i, obs, CompletedNames(ts), DoomedNames(ts));
    }
    PartlyKeeps(file, ts, Polled(ts, obs), n);
  }

  lemma {:induction false} LaunchingKeeps(file: TaskFile, ts: seq<TaskRun>, parallel: bool, obs: Observation, n: nat)
    requires Inv(file, ts) && n <= |ts|
    ensures var vs := LaunchUpto(ts, 0, n, CountRunning(ts), SnapshotOf(ts, parallel), obs);
      Inv(file, vs) && AllEvolve(ts, vs)
  {
    InterruptedIsCancelled(ts, 0, n, CountRunning(ts), SnapshotOf(ts, parallel), obs);
    LaunchPassKeeps(file, ts, parallel, StopAt(obs, n));
  }

  /** The invariant holds wherever an iteration is interrupted. */
  lemma {:induction false} InsideKeeps(file: TaskFile, ts: seq<TaskRun>, parallel: bool, obs: Observation, at: Place)
    requires Inv(file, ts) && at.n <= |ts| && (at.Aborting? ==> CancelAtTop(obs))
    ensures Inv(file, Inside(ts, parallel, obs, at))
  {
    SweepKeeps(file, ts, obs);
    match at
    case Aborting(n) => AbortingKeeps(file, ts, obs.abortClock, n);
    case Marking(n) =>
      if CancelAtTop(obs) {
        AbortPassKeeps(file, ts, obs.abortClock);
      }
      MarkingKeeps(file, if CancelAtTop(obs) then AbortedRuns(ts, obs.abortClock) else ts, n);
    case Launching(n) => LaunchingKeeps(file, Swept(ts, obs), parallel, obs, n);
    case Polling(n) =>
      LaunchPassKeeps(file, Swept(ts, obs), parallel, obs);
      PollingKeeps(file, LaunchPass(Swept(ts, obs), parallel, obs), obs, n);
  }

  // ---------------------------------------------------------------- sequential mode

  lemma {:induction false} PartlyShrinks(ts: seq<TaskRun>, us: seq<TaskRun>, n: nat)
    requires |us| == |ts| && n <= |ts| && CountRunning(ts) <= 1
    requires forall i :: 0 <= i < |ts| && us[i].state.Running? ==> ts[i].state.Running?
    ensures CountRunning(Partly(ts, us, n)) <= 1
  {
    var vs := Partly(ts, us, n);
    forall i | 0 <= i < |ts| && vs[i].state.Running? ensures ts[i].state.Running? {
      assert vs[i] == if i < n then us[i] else ts[i];
    }
    CountShrinks(ts, vs);
  }

  /** In sequential mode no task is launched beside a running one, not even within a pass. */
  lemma {:induction false} InsideOneAtATime(ts: seq<TaskRun>, obs: Observation, at: Place)
    requires CountRunning(ts) <= 1 && at.n <= |ts| && (at.Aborting? ==> CancelAtTop(obs))
    ensures CountRunning(Inside(ts, false, obs, at)) <= 1
  {
    OneAtATimeSweep(ts, obs);
    var swept := Swept(ts, obs);
    var snap := SnapshotOf(swept, false);
    match at
    case Aborting(n) => PartlyShrinks(ts, AbortedRuns(ts, obs.abortClock), n);
    case Marking(n) =>
      var first := if CancelAtTop(obs) then AbortedRuns(ts, obs.abortClock) else ts;
      CountShrinks(ts, first);
      PartlyShrinks(first, Marked(first), n);
    case Launching(n) =>
      InterruptedIsCancelled(swept, 0, n, CountRunning(swept), snap, obs);
      LaunchFromOneAtATime(swept, 0, CountRunning(swept), snap, StopAt(obs, n));
    case Polling(n) =>
      LaunchFromOneAtATime(swept, 0, CountRunning(swept), snap, obs);
      PartlyShrinks(LaunchPass(swept, false, obs), Polled(LaunchPass(swept, false, obs), obs), n);
  }

  // ---------------------------------------------------------------- whole runs

  /** The states from which a run of the file goes on to another iteration. */
  ghost predicate GoingOn(file: TaskFile, parallel: bool, ts: seq<TaskRun>) {
    exists script :: Run(InitialRuns(file), parallel, script) == Loop.Polling(ts)
  }

  /** In every run, the invariant holds at every instant, inside the passes too. */
  lemma {:induction false} AlwaysInv(file: TaskFile, parallel: bool, ts: seq<TaskRun>, obs: Observation, at: Place)
    requires GoingOn(file, parallel, ts) && at.n <= |ts| && (at.Aborting? ==> CancelAtTop(obs))
    ensures Inv(file, Inside(ts, parallel, obs, at))
  {
    var script :| Run(InitialRuns(file), parallel, script) == Loop.Polling(ts);
    ReachableInv(file, parallel, script);
    InsideKeeps(file, ts, parallel, obs, at);
  }

  /** And in sequential mode at most one task is running, at every instant. */
  lemma {:induction false} AlwaysOneAtATime(
    file: TaskFile, ts: seq<TaskRun>, obs: Observation, at: Place, i: nat, j: nat)
    requires GoingOn(file, false, ts) && at.n <= |ts| && (at.Aborting? ==> CancelAtTop(obs)) && i < j < |ts|
    ensures var vs := Inside(ts, false, obs, at); !(vs[i].state.Running? && vs[j].state.Running?)
  {
    var script :| Run(InitialRuns(file), false, script) == Loop.Polling(ts);
    NothingRunsInitially(InitialRuns(file));
    OneAtATimeRun(InitialRuns(file), script);
    InsideOneAtATime(ts, obs, at);
    var vs := Inside(ts, false, obs, at);
    if vs[i].state.Running? && vs[j].state.Running? {
      CountTwo(vs, i, j);
    }
  }
}
