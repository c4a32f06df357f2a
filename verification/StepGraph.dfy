/** The dependency graph of a step list and the three-colour depth-first search
    that `detectCycles` runs over it. */
module StepGraph {
  import opened Text

  type Ref = string

  /** Adjacency list: step ref -> the refs it needs. A ref without an entry has no
      dependencies (Go's zero value for a missing map key). */
  type Deps = map<Ref, seq<Ref>>

  function Needs(deps: Deps, n: Ref): seq<Ref> {
    if n in deps then deps[n] else []
  }

  predicate Edge(deps: Deps, a: Ref, b: Ref) {
    b in Needs(deps, a)
  }

  /** Consecutive nodes are joined by dependency edges. */
  ghost predicate Walk(deps: Deps, p: seq<Ref>) {
    forall i, j | 0 <= i && j == i + 1 && j < |p| :: Edge(deps, p[i], p[j])
  }

  /** A closed walk of at least one edge. */
  ghost predicate Cycle(deps: Deps, p: seq<Ref>) {
    |p| >= 2 && p[0] == p[|p| - 1] && Walk(deps, p)
  }

  ghost predicate Acyclic(deps: Deps) {
    !exists p :: Cycle(deps, p)
  }

  /** `rank` puts every dependency strictly below the node that needs it. */
  ghost predicate Ranks(deps: Deps, rank: map<Ref, nat>) {
    forall a, b {:trigger Edge(deps, a, b)} | Edge(deps, a, b) :: a in rank && b in rank && rank[b] < rank[a]
  }

  lemma {:induction false} RankFallsAlongWalk(deps: Deps, rank: map<Ref, nat>, p: seq<Ref>)
    requires Ranks(deps, rank) && Walk(deps, p) && |p| >= 2
    ensures p[0] in rank && p[|p| - 1] in rank && rank[p[|p| - 1]] < rank[p[0]]
  {
    assert Edge(deps, p[0], p[1]);
    if |p| > 2 {
      RankFallsAlongWalk(deps, rank, p[1..]);
    }
  }

  lemma RankedIsAcyclic(deps: Deps, rank: map<Ref, nat>)
    requires Ranks(deps, rank)
    ensures Acyclic(deps)
  {
    forall p | Cycle(deps, p) ensures false {
      RankFallsAlongWalk(deps, rank, p);
    }
  }

  ghost predicate Reaches(deps: Deps, path: seq<Ref>, n: Ref) {
    path == [] || Edge(deps, path[|path| - 1], n)
  }

  lemma BackEdge(deps: Deps, path: seq<Ref>, n: Ref, start: nat)
    requires Walk(deps, path) && Reaches(deps, path, n)
    requires start < |path| && path[start] == n
    ensures Cycle(deps, path[start..] + [n])
  {
    var cycle := path[start..] + [n];
    forall i | 0 <= i < |cycle| - 1 ensures Edge(deps, cycle[i], cycle[i + 1]) {
      assert cycle[i] == path[start + i];
      if i + 1 < |path| - start {
        assert Edge(deps, path[start + i], path[start + i + 1]);
      }
    }
  }

  // ----- working a graph off -----

  /** A node may be closed next when everything it needs is closed. */
  predicate Ready(deps: Deps, closed: set<Ref>, n: Ref) {
    n !in closed && forall b | b in Needs(deps, n) :: b in closed
  }

  ghost predicate SomeReady(deps: Deps, nodes: set<Ref>, closed: set<Ref>) {
    exists n :: n in nodes && Ready(deps, closed, n)
  }

  /** However the nodes have been closed so far, while one is open one is ready. */
  ghost predicate NeverStuck(deps: Deps, nodes: set<Ref>) {
    forall closed | closed < nodes :: SomeReady(deps, nodes, closed)
  }

  ghost predicate NeedsOneIn(deps: Deps, open: set<Ref>, n: Ref) {
    exists b :: b in open && Edge(deps, n, b)
  }

  ghost predicate EveryoneWaits(deps: Deps, open: set<Ref>) {
    forall n {:trigger NeedsOneIn(deps, open, n)} | n in open :: NeedsOneIn(deps, open, n)
  }

  /** Following needs inside a set that always offers one leads into a cycle. */
  lemma {:induction false} FollowIntoCycle(deps: Deps, open: set<Ref>, path: seq<Ref>)
    requires EveryoneWaits(deps, open)
    requires path != [] && Walk(deps, path) && forall n | n in path :: n in open
    ensures !Acyclic(deps)
    decreases open - set n | n in path
  {
    var last := path[|path| - 1];
    assert last in path && NeedsOneIn(deps, open, last);
    var b :| b in open && Edge(deps, last, b);
    if b in path {
      var start :| 0 <= start < |path| && path[start] == b;
      BackEdge(deps, path, b, start);
    } else {
      var longer := path + [b];
      assert b in open - (set n | n in path);
      assert (set n | n in longer) == (set n | n in path) + {b};
      FollowIntoCycle(deps, open, longer);
    }
  }

  lemma CycleIsStuck(deps: Deps, nodes: set<Ref>, p: seq<Ref>)
    requires Cycle(deps, p) && forall n | n in p :: n in nodes
    ensures !NeverStuck(deps, nodes)
  {
    var onCycle := set n | n in p;
    var closed := nodes - onCycle;
    assert p[0] in onCycle && p[0] in nodes && closed < nodes;
    forall n | n in nodes ensures !Ready(deps, closed, n) {
      if n in onCycle {
        var i :| 0 <= i < |p| && p[i] == n;
        var j := if i == |p| - 1 then 0 else i;
        assert p[j] == n && Edge(deps, p[j], p[j + 1]) && p[j + 1] in onCycle;
      }
    }
    assert !SomeReady(deps, nodes, closed);
  }

  lemma CycleInside(deps: Deps, nodes: set<Ref>, p: seq<Ref>)
    requires Cycle(deps, p) && forall a, b | Edge(deps, a, b) :: a in nodes && b in nodes
    ensures forall n | n in p :: n in nodes
  {
    forall n | n in p ensures n in nodes {
      var i :| 0 <= i < |p| && p[i] == n;
      if i == 0 { assert Edge(deps, p[0], p[1]); } else { assert Edge(deps, p[i - 1], p[i]); }
    }
  }

  lemma AcyclicHasReady(deps: Deps, nodes: set<Ref>, closed: set<Ref>)
    requires forall a, b | Edge(deps, a, b) :: a in nodes && b in nodes
    requires Acyclic(deps) && closed < nodes
    ensures SomeReady(deps, nodes, closed)
  {
    var open := nodes - closed;
    var n := Remaining(nodes, closed);
    if !SomeReady(deps, nodes, closed) {
      forall m | m in open ensures NeedsOneIn(deps, open, m) {
        assert !Ready(deps, closed, m);
        var b :| b in Needs(deps, m) && b !in closed;
        assert Edge(deps, m, b);
      }
      FollowIntoCycle(deps, open, [n]);
    }
  }

  lemma Remaining(nodes: set<Ref>, closed: set<Ref>) returns (n: Ref)
    requires closed < nodes
    ensures n in nodes && n !in closed
  {
    n :| n in nodes && n !in closed;
  }

  /** Working off a graph can never get stuck exactly when it has no cycle. */
  lemma NeverStuckIffAcyclic(deps: Deps, nodes: set<Ref>)
    requires forall a, b | Edge(deps, a, b) :: a in nodes && b in nodes
    ensures NeverStuck(deps, nodes) <==> Acyclic(deps)
  {
    if Acyclic(deps) {
      forall closed | closed < nodes ensures SomeReady(deps, nodes, closed) {
        AcyclicHasReady(deps, nodes, closed);
      }
    } else {
      var p :| Cycle(deps, p);
      CycleInside(deps, nodes, p);
      CycleIsStuck(deps, nodes, p);
    }
  }

  datatype Colour = Unvisited | Visiting | Visited

  function ColourIn(state: map<Ref, Colour>, n: Ref): Colour {
    if n in state then state[n] else Unvisited
  }

  ghost predicate Distinct(path: seq<Ref>) {
    forall i, j | 0 <= i < j < |path| :: path[i] != path[j]
  }

  ghost predicate ColourMatches(state: map<Ref, Colour>, path: seq<Ref>, rank: map<Ref, nat>) {
    forall n :: (n in path <==> ColourIn(state, n) == Visiting) && (n in rank <==> ColourIn(state, n) == Visited)
  }

  ghost predicate RanksFinished(deps: Deps, rank: map<Ref, nat>, clock: nat) {
    && (forall a, b {:trigger Edge(deps, a, b)} | a in rank && Edge(deps, a, b) :: b in rank && rank[b] < rank[a])
    && (forall n | n in rank :: rank[n] < clock)
  }

  /** The search invariant: the path is a walk without repetition, colour Visiting is
      membership in it, and the finished nodes are ranked above all they need. */
  ghost predicate Searching(deps: Deps, state: map<Ref, Colour>, path: seq<Ref>, rank: map<Ref, nat>, clock: nat) {
    Walk(deps, path) && Distinct(path) && ColourMatches(state, path, rank) && RanksFinished(deps, rank, clock)
  }

  lemma LeaveStack(deps: Deps, path: seq<Ref>, n: Ref)
    requires Walk(deps, path + [n]) && Distinct(path + [n])
    ensures Walk(deps, path) && Distinct(path) && n !in path
  {
    var path' := path + [n];
    assert forall i | 0 <= i < |path| :: path'[i] == path[i] && path'[i] != path'[|path|];
  }

  lemma LeaveColours(state: map<Ref, Colour>, path: seq<Ref>, rank: map<Ref, nat>, n: Ref, r: nat)
    requires ColourMatches(state, path + [n], rank) && n !in path
    ensures ColourMatches(state[n := Visited], path, rank[n := r])
  {
    assert forall m :: m in path + [n] <==> m in path || m == n;
  }

  lemma LeaveRanks(deps: Deps, rank: map<Ref, nat>, clock: nat, n: Ref)
    requires RanksFinished(deps, rank, clock) && n !in rank
    requires forall b | Edge(deps, n, b) :: b in rank
    ensures RanksFinished(deps, rank[n := clock], clock + 1)
  {}

  ghost function Unseen(nodes: set<Ref>, state: map<Ref, Colour>): set<Ref> {
    set n | n in nodes && ColourIn(state, n) == Unvisited
  }

  lemma UnseenShrinks(nodes: set<Ref>, state: map<Ref, Colour>, n: Ref, c: Colour)
    requires c != Unvisited
    ensures Unseen(nodes, state[n := c]) == Unseen(nodes, state) - {n}
  {}

  /** The search only ever finishes more nodes and leaves fewer unvisited. */
  ghost predicate Advances(nodes: set<Ref>, state: map<Ref, Colour>, rank: map<Ref, nat>,
                           state': map<Ref, Colour>, rank': map<Ref, nat>) {
    rank.Keys <= rank'.Keys && Unseen(nodes, state') <= Unseen(nodes, state)
  }

  lemma Enter(deps: Deps, nodes: set<Ref>, state: map<Ref, Colour>, path: seq<Ref>, rank: map<Ref, nat>, clock: nat, n: Ref)
    requires Searching(deps, state, path, rank, clock)
    requires n in nodes && ColourIn(state, n) == Unvisited && Reaches(deps, path, n)
    ensures Searching(deps, state[n := Visiting], path + [n], rank, clock)
    ensures Unseen(nodes, state[n := Visiting]) < Unseen(nodes, state)
  {
    assert n !in path && n !in rank;
    assert forall m :: m in path + [n] <==> m in path || m == n;
    UnseenShrinks(nodes, state, n, Visiting);
    assert n in Unseen(nodes, state);
  }

  /** Finishing `n`: pop it, colour it Visited and rank it above everything finished so far. */
  lemma Leave(deps: Deps, nodes: set<Ref>, state0: map<Ref, Colour>, rank0: map<Ref, nat>,
              state: map<Ref, Colour>, path: seq<Ref>, rank: map<Ref, nat>, clock: nat, n: Ref)
    requires Searching(deps, state, path + [n], rank, clock)
    requires Advances(nodes, state0[n := Visiting], rank0, state, rank)
    requires forall j | 0 <= j < |Needs(deps, n)| :: Needs(deps, n)[j] in rank
    ensures Searching(deps, state[n := Visited], path, rank[n := clock], clock + 1)
    ensures Advances(nodes, state0, rank0, state[n := Visited], rank[n := clock])
  {
    assert n in path + [n];
    LeaveStack(deps, path, n);
    LeaveColours(state, path, rank, n, clock);
    LeaveRanks(deps, rank, clock, n);
    UnseenShrinks(nodes, state0, n, Visiting);
    UnseenShrinks(nodes, state, n, Visited);
  }

  /** The state captured by the recursive closure in `detectCycles`: the visit state
      of each node and the explicit path stack. `rank` records finishing order. */
  class CycleFinder {
    const deps: Deps
    const nodes: set<Ref>
    var state: map<Ref, Colour>
    var path: seq<Ref>
    ghost var rank: map<Ref, nat>
    ghost var clock: nat

    constructor (deps: Deps, nodes: set<Ref>)
      ensures this.deps == deps && this.nodes == nodes
      ensures Searching(deps, state, path, rank, clock) && path == [] && rank == map[]
    {
      this.deps, this.nodes := deps, nodes;
      state, path, rank, clock := map[], [], map[], 0;
    }

    /** The index of `node` on the path. The source starts from -1, which would make the
        following slice expression panic; a Visiting node is always found. */
    method FirstOnPath(node: Ref) returns (cycleStart: int)
      requires node in path
      ensures 0 <= cycleStart < |path| && path[cycleStart] == node && node !in path[..cycleStart]
    {
      cycleStart := -1;
      for i := 0 to |path|
        invariant node !in path[..i] && cycleStart == -1
      {
        if path[i] == node {
          return i;
        }
      }
    }

    method Dfs(node: Ref) returns (err: Option<seq<Ref>>)
      requires Searching(deps, state, path, rank, clock) && Reaches(deps, path, node)
      requires node in nodes && forall a, b | Edge(deps, a, b) :: b in nodes
      modifies this
      ensures err.Some? ==> Cycle(deps, err.value)
      ensures err.None? ==> Searching(deps, state, path, rank, clock) && path == old(path)
      ensures err.None? ==> node in rank && Advances(nodes, old(state), old(rank), state, rank)
      decreases Unseen(nodes, state), 1
    {
      if ColourIn(state, node) == Visited {
        err := None;
      } else if ColourIn(state, node) == Visiting {
        var cycleStart := FirstOnPath(node);
        BackEdge(deps, path, node, cycleStart);
        err := Some(path[cycleStart..] + [node]);
      } else {
        err := Visit(node);
      }
    }

    /** The body of the closure for a node met for the first time. */
    method Visit(node: Ref) returns (err: Option<seq<Ref>>)
      requires Searching(deps, state, path, rank, clock) && Reaches(deps, path, node)
      requires node in nodes && forall a, b | Edge(deps, a, b) :: b in nodes
      requires ColourIn(state, node) == Unvisited
      modifies this
      ensures err.Some? ==> Cycle(deps, err.value)
      ensures err.None? ==> Searching(deps, state, path, rank, clock) && path == old(path)
      ensures err.None? ==> node in rank && Advances(nodes, old(state), old(rank), state, rank)
      decreases Unseen(nodes, state), 0
    {
      hide Searching, Cycle, Reaches;
      ghost var stack := path;
      Enter(deps, nodes, state, path, rank, clock, node);
      state := state[node := Visiting];
      path := path + [node];

      var needs := Needs(deps, node);
      for i := 0 to |needs|
        invariant path == stack + [node] && Searching(deps, state, stack + [node], rank, clock)
        invariant Advances(nodes, old(state)[node := Visiting], old(rank), state, rank)
        invariant forall j | 0 <= j < i :: needs[j] in rank
      {
        assert Edge(deps, node, needs[i]);
        err := Dfs(needs[i]);
        if err.Some? {
          return;
        }
      }

      Leave(deps, nodes, old(state), old(rank), state, stack, rank, clock, node);
      path := path[..|path| - 1];
      assert path == stack;
      state := state[node := Visited];
      rank, clock := rank[node := clock], clock + 1;
      err := None;
    }
  }
}
