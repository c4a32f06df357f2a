/** Molecule templates: validation of a parsed step list and the cycle check. */
module Molecule {
  import opened Text
  import opened StepGraph

  import opened StepParser

  /** The adjacency map `detectCycles` builds: a later step with the same ref replaces
      the needs of an earlier one. */
  function DepsOf(steps: seq<Step>): Deps {
    if steps == [] then map[]
    else DepsOf(steps[..|steps| - 1])[steps[|steps| - 1].ref := steps[|steps| - 1].needs]
  }

  function Refs(steps: seq<Step>): set<string> {
    set s | s in steps :: s.ref
  }

  function Mentioned(steps: seq<Step>): set<string> {
    Refs(steps) + set s, n | s in steps && n in s.needs :: n
  }

  lemma {:induction false} DepsOfSteps(steps: seq<Step>)
    ensures DepsOf(steps).Keys == Refs(steps)
    ensures forall r | r in DepsOf(steps) :: exists s | s in steps :: s.ref == r && DepsOf(steps)[r] == s.needs
  {
    if steps != [] {
      var front, last := steps[..|steps| - 1], steps[|steps| - 1];
      DepsOfSteps(front);
      assert steps == front + [last];
      assert Refs(steps) == Refs(front) + {last.ref};
      assert forall s | s in front :: s in steps;
      assert last in steps;
    }
  }

  /** Refs occur once each, so a step's own needs are its needs in the graph. */
  predicate DistinctRefs(steps: seq<Step>) {
    forall i, j | 0 <= i < j < |steps| :: steps[i].ref != steps[j].ref
  }

  lemma {:induction false} DepsOfDistinct(steps: seq<Step>, i: nat)
    requires DistinctRefs(steps) && i < |steps|
    ensures steps[i].ref in DepsOf(steps) && DepsOf(steps)[steps[i].ref] == steps[i].needs
  {
    if i < |steps| - 1 {
      var front := steps[..|steps| - 1];
      assert front[i] == steps[i];
      DepsOfDistinct(front, i);
    }
  }

  lemma AllRanked(steps: seq<Step>, deps: Deps, rank: map<string, nat>, clock: nat)
    requires deps.Keys == Refs(steps) && RanksFinished(deps, rank, clock)
    requires forall j | 0 <= j < |steps| :: steps[j].ref in rank
    ensures Ranks(deps, rank)
  {}

  /** The adjacency map, step by step. */
  method Adjacency(steps: seq<Step>) returns (deps: Deps)
    ensures deps == DepsOf(steps)
  {
    deps := map[];
    for i := 0 to |steps|
      invariant deps == DepsOf(steps[..i])
    {
      deps := deps[steps[i].ref := steps[i].needs];
      assert steps[..i + 1][..i] == steps[..i];
    }
    assert steps[..|steps|] == steps;
  }

  lemma SearchEnds(deps: Deps, state: map<string, Colour>, rank: map<string, nat>, clock: nat, steps: seq<Step>)
    requires Searching(deps, state, [], rank, clock) && deps == DepsOf(steps)
    requires forall j | 0 <= j < |steps| :: steps[j].ref in rank
    ensures Ranks(deps, rank) && Acyclic(deps)
  {
    DepsOfSteps(steps);
    AllRanked(steps, deps, rank, clock);
    RankedIsAcyclic(deps, rank);
  }

  /** `detectCycles`: exact in both directions. A reported cycle is a closed chain of
      dependency edges; silence means the graph can be ranked. */
  method DetectCycles(steps: seq<Step>) returns (err: Option<seq<string>>)
    ensures err.Some? ==> Cycle(DepsOf(steps), err.value)
    ensures err.None? <==> Acyclic(DepsOf(steps))
    ensures err.None? ==> exists rank :: Ranks(DepsOf(steps), rank)
  {
    var deps := Adjacency(steps);
    DepsOfSteps(steps);
    var finder := new CycleFinder(deps, Mentioned(steps));
    hide DepsOf, Cycle;
    for i := 0 to |steps|
      invariant finder.deps == deps && finder.nodes == Mentioned(steps)
      invariant Searching(deps, finder.state, finder.path, finder.rank, finder.clock) && finder.path == []
      invariant forall j | 0 <= j < i :: steps[j].ref in finder.rank
    {
      if ColourIn(finder.state, steps[i].ref) == Unvisited {
        err := finder.Dfs(steps[i].ref);
        if err.Some? {
          return;
        }
      }
    }
    err := None;
    SearchEnds(deps, finder.state, finder.rank, finder.clock, steps);
  }

  // ----- validation -----

  datatype Verdict =
    | Valid
    | MoleculeIsNil
    | WrongType(found: string)
    | NoSteps
    | EmptyRef
    | DuplicateRef(ref: string)
    | UnknownNeed(ref: string, need: string)
    | SelfDependency(ref: string)
    | CycleDetected(cycle: seq<string>)

  datatype Template = Template(kind: string, description: string)

  predicate NonEmptyRefs(steps: seq<Step>) {
    forall s | s in steps :: s.ref != ""
  }

  predicate KnownNeeds(steps: seq<Step>) {
    forall s, n | s in steps && n in s.needs :: n in Refs(steps)
  }

  predicate NoSelfNeeds(steps: seq<Step>) {
    forall s | s in steps :: s.ref !in s.needs
  }

  /** What a step list must be for its molecule to pass. */
  ghost predicate Sound(steps: seq<Step>) {
    && steps != [] && NonEmptyRefs(steps) && DistinctRefs(steps)
    && KnownNeeds(steps) && NoSelfNeeds(steps) && Acyclic(DepsOf(steps))
  }

  /** An error says something true of the step list, and that the checks before it passed. */
  ghost predicate Justified(v: Verdict, steps: seq<Step>) {
    match v
    case NoSteps => steps == []
    case EmptyRef => !NonEmptyRefs(steps)
    case DuplicateRef(r) => exists i, j | 0 <= i < j < |steps| :: steps[i].ref == steps[j].ref == r
    case UnknownNeed(r, n) =>
      && NonEmptyRefs(steps) && DistinctRefs(steps)
      && n !in Refs(steps) && exists s | s in steps :: s.ref == r && n in s.needs
    case SelfDependency(r) =>
      && NonEmptyRefs(steps) && DistinctRefs(steps)
      && exists s | s in steps :: s.ref == r && r in s.needs
    case CycleDetected(cycle) =>
      && NonEmptyRefs(steps) && DistinctRefs(steps) && KnownNeeds(steps) && NoSelfNeeds(steps)
      && Cycle(DepsOf(steps), cycle)
    case _ => false
  }

  lemma PrefixRefs(steps: seq<Step>, i: nat)
    requires i < |steps|
    ensures Refs(steps[..i + 1]) == Refs(steps[..i]) + {steps[i].ref}
  {
    assert steps[..i + 1] == steps[..i] + [steps[i]];
  }

  /** The ref checks of `ValidateMolecule`, building its step map. */
  method CheckRefs(steps: seq<Step>) returns (v: Verdict, stepMap: set<string>)
    ensures v.Valid? <==> NonEmptyRefs(steps) && DistinctRefs(steps)
    ensures v.Valid? ==> stepMap == Refs(steps)
    ensures !v.Valid? ==> (v.EmptyRef? || v.DuplicateRef?) && Justified(v, steps)
  {
    stepMap := {};
    for i := 0 to |steps|
      invariant stepMap == Refs(steps[..i])
      invariant NonEmptyRefs(steps[..i]) && DistinctRefs(steps[..i])
    {
      if steps[i].ref == "" {
        assert steps[i] in steps;
        return EmptyRef, stepMap;
      }
      if steps[i].ref in stepMap {
        var j :| 0 <= j < i && steps[..i][j].ref == steps[i].ref;
        return DuplicateRef(steps[i].ref), stepMap;
      }
      PrefixRefs(steps, i);
      assert forall j | 0 <= j < i :: steps[..i][j] == steps[j] && steps[j] in steps[..i];
      stepMap := stepMap + {steps[i].ref};
    }
    assert steps[..|steps|] == steps;
    v := Valid;
  }

  /** The Needs checks of `ValidateMolecule`. */
  method CheckNeeds(steps: seq<Step>, stepMap: set<string>) returns (v: Verdict)
    requires NonEmptyRefs(steps) && DistinctRefs(steps) && stepMap == Refs(steps)
    ensures v.Valid? <==> KnownNeeds(steps) && NoSelfNeeds(steps)
    ensures !v.Valid? ==> (v.UnknownNeed? || v.SelfDependency?) && Justified(v, steps)
  {
    for i := 0 to |steps|
      invariant forall k | 0 <= k < i :: steps[k].ref !in steps[k].needs
      invariant forall k, n | 0 <= k < i && n in steps[k].needs :: n in stepMap
    {
      var needs := steps[i].needs;
      for j := 0 to |needs|
        invariant forall k | 0 <= k < j :: needs[k] in stepMap && needs[k] != steps[i].ref
      {
        assert steps[i] in steps && needs[j] in steps[i].needs;
        if needs[j] !in stepMap {
          return UnknownNeed(steps[i].ref, needs[j]);
        }
        if needs[j] == steps[i].ref {
          return SelfDependency(steps[i].ref);
        }
      }
    }
    forall s | s in steps ensures s.ref !in s.needs && forall n | n in s.needs :: n in Refs(steps) {
      var k :| 0 <= k < |steps| && steps[k] == s;
    }
    v := Valid;
  }

  /** `ValidateMolecule`: passes exactly the sound molecules, and justifies every error. */
  method ValidateMolecule(mol: Option<Template>) returns (v: Verdict)
    ensures v.Valid? <==> mol.Some? && mol.value.kind == "molecule" && Sound(Denotes(mol.value.description))
    ensures v.MoleculeIsNil? <==> mol.None?
    ensures v.WrongType? <==> mol.Some? && mol.value.kind != "molecule"
    ensures v.WrongType? ==> v.found == mol.value.kind
    ensures !v.Valid? && mol.Some? && mol.value.kind == "molecule" ==> Justified(v, Denotes(mol.value.description))
  {
    if mol.None? {
      return MoleculeIsNil;
    }
    if mol.value.kind != "molecule" {
      return WrongType(mol.value.kind);
    }
    var steps := ParseMoleculeSteps(mol.value.description);
    if |steps| == 0 {
      return NoSteps;
    }
    var stepMap;
    v, stepMap := CheckRefs(steps);
    if !v.Valid? {
      return;
    }
    v := CheckNeeds(steps, stepMap);
    if !v.Valid? {
      return;
    }
    var err := DetectCycles(steps);
    if err.Some? {
      return CycleDetected(err.value);
    }
  }
}
