/**
 The dependency graph of a task file and the three-colour depth-first search that
 accepts it (`validate_acyclic_graph` in src/orchestrator.rs).
 */
module TaskGraph {
  import opened Options

  /** Task name (of any type) to its `depends_on` list. A name without an entry has no outgoing edge. */
  type Graph<N> = map<N, seq<N>>

  function Deps<N(==)>(g: Graph<N>, n: N): seq<N> {
    if n in g then g[n] else []
  }

  /** Every name that occurs in the graph, as a task or as a dependency. */
  ghost function Nodes<N(!new)>(g: Graph<N>): (all: set<N>)
    ensures Covers(g, all)
  {
    var all := g.Keys + (set n, d | n in g && d in g[n] :: d);
    assert forall n, k :: n in g && 0 <= k < |g[n]| ==> g[n][k] in g[n];
    all
  }

  ghost predicate Covers<N(!new)>(g: Graph<N>, all: set<N>) {
    g.Keys <= all && forall n, k :: n in g && 0 <= k < |g[n]| ==> g[n][k] in all
  }

  /** A dependency path: each name is listed in the `depends_on` of the one before it. */
  ghost predicate IsPath<N(!new)>(g: Graph<N>, p: seq<N>) {
    |p| > 0 && forall i :: 0 <= i < |p| - 1 ==> StepAt(g, p, i)
  }

  ghost predicate StepAt<N(!new)>(g: Graph<N>, p: seq<N>, i: nat)
    requires i < |p| - 1
  {
    p[i + 1] in Deps(g, p[i])
  }

  ghost predicate IsCycle<N(!new)>(g: Graph<N>, p: seq<N>) {
    |p| > 1 && IsPath(g, p) && p[0] == p[|p| - 1]
  }

  ghost predicate Acyclic<N(!new)>(g: Graph<N>) {
    forall p :: !IsCycle(g, p)
  }

  /** `a` depends on `b` through one or more edges. */
  ghost predicate DependsTransitively<N(!new)>(g: Graph<N>, a: N, b: N) {
    exists p :: IsPath(g, p) && |p| > 1 && p[0] == a && p[|p| - 1] == b
  }

  /** What the search reports on a cycle: a dependency path whose last name closes a loop. */
  ghost predicate ClosesLoop<N(!new)>(g: Graph<N>, stack: seq<N>) {
    |stack| > 1 && IsPath(g, stack) && stack[|stack| - 1] in stack[..|stack| - 1]
  }

  lemma ClosedLoopIsCycle<N(!new)>(g: Graph<N>, stack: seq<N>)
    requires ClosesLoop(g, stack)
    ensures !Acyclic(g)
  {
    var i :| 0 <= i < |stack| - 1 && stack[i] == stack[|stack| - 1];
    var p := stack[i..];
    forall k | 0 <= k < |p| - 1 ensures StepAt(g, p, k) {
      assert StepAt(g, stack, i + k);
    }
    assert IsCycle(g, p);
  }

  lemma OneStep<N(!new)>(g: Graph<N>, a: N, b: N)
    requires b in Deps(g, a)
    ensures DependsTransitively(g, a, b)
  {
    var p := [a, b];
    assert StepAt(g, p, 0);
    assert IsPath(g, p);
  }

  lemma StepThenDepends<N(!new)>(g: Graph<N>, a: N, b: N, c: N)
    requires b in Deps(g, a) && DependsTransitively(g, b, c)
    ensures DependsTransitively(g, a, c)
  {
    var p :| IsPath(g, p) && |p| > 1 && p[0] == b && p[|p| - 1] == c;
    PathExtends(g, a, p);
    assert ([a] + p)[|p|] == c;
  }

  lemma PathExtends<N(!new)>(g: Graph<N>, a: N, p: seq<N>)
    requires IsPath(g, p) && p[0] in Deps(g, a)
    ensures IsPath(g, [a] + p)
  {
    var q := [a] + p;
    forall k | 0 <= k < |q| - 1 ensures StepAt(g, q, k) {
      if k > 0 {
        assert StepAt(g, p, k - 1);
      }
    }
  }

  lemma PathTail<N(!new)>(g: Graph<N>, p: seq<N>)
    requires IsPath(g, p) && |p| > 1
    ensures p[1] in Deps(g, p[0]) && IsPath(g, p[1..])
  {
    assert StepAt(g, p, 0);
    forall k | 0 <= k < |p| - 2 ensures StepAt(g, p[1..], k) {
      assert StepAt(g, p, k + 1);
    }
  }

  lemma PathAppends<N(!new)>(g: Graph<N>, p: seq<N>, n: N)
    requires IsPath(g, p) && n in Deps(g, p[|p| - 1])
    ensures IsPath(g, p + [n])
  {
    var q := p + [n];
    forall k | 0 <= k < |q| - 1 ensures StepAt(g, q, k) {
      if k < |p| - 1 {
        assert StepAt(g, p, k);
      }
    }
  }

  lemma PathPrefix<N(!new)>(g: Graph<N>, p: seq<N>, n: nat)
    requires IsPath(g, p) && 0 < n <= |p|
    ensures IsPath(g, p[..n])
  {
    forall k | 0 <= k < n - 1 ensures StepAt(g, p[..n], k) {
      assert StepAt(g, p, k);
    }
  }

  // ---------------------------------------------------------------- finishing times

  /** Every ranked name has all of its dependencies ranked below it. */
  ghost predicate DependenciesFirst<N(!new)>(g: Graph<N>, rank: map<N, nat>) {
    forall n, d {:trigger d in Deps(g, n)} :: n in rank && d in Deps(g, n) ==> d in rank && rank[d] < rank[n]
  }

  lemma {:induction false} PathDescends<N(!new)>(g: Graph<N>, rank: map<N, nat>, p: seq<N>)
    requires DependenciesFirst(g, rank) && IsPath(g, p) && |p| > 1 && p[0] in rank
    ensures p[|p| - 1] in rank && rank[p[|p| - 1]] < rank[p[0]]
    decreases |p|
  {
    PathTail(g, p);
    if |p| > 2 {
      PathDescends(g, rank, p[1..]);
    }
  }

  lemma RankedIsAcyclic<N(!new)>(g: Graph<N>, rank: map<N, nat>)
    requires DependenciesFirst(g, rank)
    requires forall n :: n in g ==> n in rank
    ensures Acyclic(g)
  {
    forall p ensures !IsCycle(g, p) {
      if IsCycle(g, p) {
        PathTail(g, p);
        PathDescends(g, rank, p);
      }
    }
  }

  // ---------------------------------------------------------------- minimal elements

  /** A sequence drawn from a smaller set repeats a value. */
  lemma {:induction false} Repeats<N(!new)>(p: seq<N>, s: set<N>) returns (i: nat, j: nat)
    requires |p| > |s| && forall k :: 0 <= k < |p| ==> p[k] in s
    ensures i < j < |p| && p[i] == p[j]
    decreases |p|
  {
    var last := p[|p| - 1];
    if k :| 0 <= k < |p| - 1 && p[k] == last {
      return k, |p| - 1;
    }
    i, j := Repeats(p[..|p| - 1], s - {last});
  }

  ghost predicate HasDepIn<N(!new)>(g: Graph<N>, n: N, s: set<N>) {
    exists d :: d in Deps(g, n) && d in s
  }

  lemma {:induction false} WalkInside<N(!new)>(g: Graph<N>, s: set<N>, n: N, len: nat) returns (p: seq<N>)
    requires n in s && len > 0
    requires forall m {:trigger HasDepIn(g, m, s)} :: m in s ==> HasDepIn(g, m, s)
    ensures |p| == len && IsPath(g, p) && p[0] == n && forall k :: 0 <= k < |p| ==> p[k] in s
    decreases len
  {
    p := [n];
    if len > 1 {
      assert HasDepIn(g, n, s);
      var d :| d in Deps(g, n) && d in s;
      var rest := WalkInside(g, s, d, len - 1);
      p := [n] + rest;
      PathExtends(g, n, rest);
    }
  }

  /**
   What acyclicity buys: any nonempty set of names has a member none of whose dependencies
   is in the set. The scheduler's progress and the closure of skipping both rest on it.
   */
  lemma MinimalExists<N(!new)>(g: Graph<N>, s: set<N>) returns (n: N)
    requires Acyclic(g) && s != {}
    ensures n in s && forall d :: d in Deps(g, n) ==> d !in s
  {
    if m {:trigger HasDepIn(g, m, s)} :| m in s && !HasDepIn(g, m, s) {
      return m;
    }
    var start :| start in s;
    var p := WalkInside(g, s, start, |s| + 1);
    var i, j := Repeats(p, s);
    var loop := p[i..j + 1];
    forall k | 0 <= k < |loop| - 1 ensures StepAt(g, loop, k) {
      assert StepAt(g, p, i + k);
    }
    assert IsCycle(g, loop);
  }

  // ---------------------------------------------------------------- the search

  datatype VisitState = Visiting | Done

  /** The search state is consistent: the stack is a path of the names being visited. */
  ghost predicate Consistent<N(!new)>(g: Graph<N>, states: map<N, VisitState>, stack: seq<N>) {
    && (forall n :: n in states && states[n] == Visiting ==> n in stack)
    && (forall k :: 0 <= k < |stack| ==> stack[k] in states && states[stack[k]] == Visiting)
    && (stack != [] ==> IsPath(g, stack))
  }

  /** The finished names are the Done ones, each finished after its dependencies. */
  ghost predicate Finished<N(!new)>(g: Graph<N>, states: map<N, VisitState>, rank: map<N, nat>, clock: nat) {
    && (forall n :: n in rank <==> n in states && states[n] == Done)
    && DependenciesFirst(g, rank)
    && (forall n :: n in rank ==> rank[n] < clock)
  }

  lemma PushKeeps<N(!new)>(g: Graph<N>, states: map<N, VisitState>, stack: seq<N>, rank: map<N, nat>, clock: nat, name: N)
    requires Consistent(g, states, stack) && Finished(g, states, rank, clock) && name !in states
    requires stack != [] ==> name in Deps(g, stack[|stack| - 1])
    ensures Consistent(g, states[name := Visiting], stack + [name])
    ensures Finished(g, states[name := Visiting], rank, clock)
  {
    if stack != [] {
      PathAppends(g, stack, name);
    } else {
      assert IsPath(g, [name]);
      assert stack + [name] == [name];
    }
    forall n | n in states[name := Visiting] && states[name := Visiting][n] == Visiting
      ensures n in stack + [name]
    {
      assert n in stack || n == name;
    }
  }

  lemma PopKeepsPath<N(!new)>(g: Graph<N>, states: map<N, VisitState>, rest: seq<N>, name: N)
    requires Consistent(g, states, rest + [name])
    requires name !in rest
    ensures Consistent(g, states[name := Done], rest)
    ensures name in states && states[name] == Visiting
  {
    var stack := rest + [name];
    assert stack[|rest|] == name;
    assert stack[..|rest|] == rest;
    if rest != [] {
      PathPrefix(g, stack, |rest|);
    }
    forall k | 0 <= k < |rest| ensures rest[k] in states && states[rest[k]] == Visiting && rest[k] != name {
      assert stack[k] == rest[k];
    }
    forall n | n in states && states[n] == Visiting && n != name ensures n in rest {
      assert n in stack;
    }
  }

  lemma PopKeepsRank<N(!new)>(g: Graph<N>, states: map<N, VisitState>, rank: map<N, nat>, clock: nat, name: N)
    requires Finished(g, states, rank, clock) && name in states && states[name] == Visiting
    requires forall d :: d in Deps(g, name) ==> d in rank
    ensures Finished(g, states[name := Done], rank[name := clock], clock + 1)
  {
    assert name !in rank;
  }

  lemma RevisitClosesLoop<N(!new)>(g: Graph<N>, states: map<N, VisitState>, stack: seq<N>, name: N)
    requires Consistent(g, states, stack) && name in states && states[name] == Visiting
    requires stack != [] ==> name in Deps(g, stack[|stack| - 1])
    ensures ClosesLoop(g, stack + [name])
  {
    PathAppends(g, stack, name);
    assert (stack + [name])[..|stack|] == stack;
  }

  /** The search's mutable state: the colour map and the stack of names being visited. */
  class CycleFinder<N(==,!new)> {
    const graph: Graph<N>
    ghost const nodes: set<N>
    var states: map<N, VisitState>
    var stack: seq<N>
    ghost var rank: map<N, nat> // when each Done name was finished
    ghost var clock: nat

    ghost predicate Valid()
      reads this
    {
      Covers(graph, nodes) && Consistent(graph, states, stack) && Finished(graph, states, rank, clock)
    }

    constructor (g: Graph<N>)
      ensures Valid() && graph == g && nodes == Nodes(g) && stack == []
    {
      graph := g;
      nodes := Nodes(g);
      states := map[];
      stack := [];
      rank := map[];
      clock := 0;
    }

    /** Visit one name; on `Err` the returned stack is a dependency path that closes a loop. */
    method Visit(name: N) returns (r: Result<(), seq<N>>)
      requires Valid() && name in nodes
      requires stack != [] ==> name in Deps(graph, stack[|stack| - 1])
      modifies this
      ensures r.Ok? ==> Valid() && stack == old(stack) && name in rank
      ensures old(rank.Keys) <= rank.Keys && old(states.Keys) <= states.Keys
      ensures r.Err? ==> r.error == stack && ClosesLoop(graph, stack)
      decreases nodes - states.Keys, 0
    {
      if name in states {
        if states[name] == Done {
          return Ok(());
        }
        RevisitClosesLoop(graph, states, stack, name);
        stack := stack + [name];
        return Err(stack);
      }

      PushKeeps(graph, states, stack, rank, clock, name);
      states := states[name := Visiting];
      stack := stack + [name];
      r := VisitDependencies(name);
      if r.Err? {
        return;
      }
      PopKeepsPath(graph, states, old(stack), name);
      PopKeepsRank(graph, states, rank, clock, name);
      stack := stack[..|stack| - 1];
      states := states[name := Done];
      rank := rank[name := clock];
      clock := clock + 1;
    }

    /** The loop of `visit` over the `depends_on` of the name on top of the stack. */
    method VisitDependencies(name: N) returns (r: Result<(), seq<N>>)
      requires Valid() && stack != [] && name == stack[|stack| - 1]
      modifies this
      ensures r.Ok? ==> Valid() && stack == old(stack) && forall d :: d in Deps(graph, name) ==> d in rank
      ensures old(rank.Keys) <= rank.Keys && old(states.Keys) <= states.Keys
      ensures r.Err? ==> r.error == stack && ClosesLoop(graph, stack)
      decreases nodes - states.Keys, 1
    {
      var deps := if name in graph then graph[name] else [];
      var i := 0;
      while i < |deps|
        invariant 0 <= i <= |deps|
        invariant Valid() && stack == old(stack)
        invariant forall k :: 0 <= k < i ==> deps[k] in rank
        invariant old(rank.Keys) <= rank.Keys && old(states.Keys) <= states.Keys
      {
        r := Visit(deps[i]);
        if r.Err? {
          return r;
        }
        i := i + 1;
      }
      r := Ok(());
    }
  }

  /** Ok exactly when no dependency cycle exists; otherwise the reported stack exhibits one. */
  method ValidateAcyclic<N(==,!new)>(names: seq<N>, g: Graph<N>) returns (r: Result<(), seq<N>>)
    requires forall n :: n in names <==> n in g
    ensures r.Ok? <==> Acyclic(g)
    ensures r.Err? ==> ClosesLoop(g, r.error)
  {
    var finder := new CycleFinder(g);
    var i := 0;
    while i < |names|
      invariant 0 <= i <= |names|
      invariant finder.Valid() && finder.graph == g && finder.nodes == Nodes(g) && finder.stack == []
      invariant fresh(finder)
      invariant forall k :: 0 <= k < i ==> names[k] in finder.rank
    {
      r := finder.Visit(names[i]);
      if r.Err? {
        ClosedLoopIsCycle(g, r.error);
        return;
      }
      i := i + 1;
    }
    RankedIsAcyclic(g, finder.rank);
    r := Ok(());
  }
}
