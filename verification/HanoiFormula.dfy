/** The generated formula as a workflow, worked off by sessions that may crash. */
module HanoiFormula {
  import opened Text
  import opened Numbers
  import opened Hanoi

  datatype FormulaStep = FormulaStep(id: string, needs: seq<string>, move: Option<Move>)

  function MoveId(i: nat): string {
    "move-" + Itoa(i)
  }

  /** `generate_formula`: a setup step, one step per move, a verify step, each needing the
      one before it. */
  method GenerateFormula(n: nat) returns (steps: seq<FormulaStep>)
    requires n >= 1
    ensures steps == Formula(Solution(n, A, C, B))
  {
    var moves := HanoiMoves(n);
    var total := |moves|;
    SomeMoves(n);
    FormulaNext(moves, 0);
    hide Solution, Itoa, Formula, MoveId;
    steps := [FormulaStep("setup", [], None)];
    for i := 1 to total + 1
      invariant steps == Formula(moves)[..i]
    {
      FormulaNext(moves, i);
      var prev := if i == 1 then "setup" else MoveId(i - 1);
      steps := steps + [FormulaStep(MoveId(i), [prev], Some(moves[i - 1]))];
    }
    FormulaNext(moves, total + 1);
    steps := steps + [FormulaStep("verify", [MoveId(total)], None)];
  }

  lemma FormulaNext(moves: seq<Move>, i: nat)
    requires i < |moves| + 2 && moves != []
    ensures |Formula(moves)| == |moves| + 2
    ensures Formula(moves)[..i + 1] == Formula(moves)[..i] + [
              if i == 0 then FormulaStep("setup", [], None)
              else if i <= |moves| then FormulaStep(MoveId(i), [if i == 1 then "setup" else MoveId(i - 1)], Some(moves[i - 1]))
              else FormulaStep("verify", [MoveId(|moves|)], None)]
    ensures i == |moves| + 1 ==> Formula(moves)[..i + 1] == Formula(moves)
  {
    hide MoveId;
  }

  lemma SomeMoves(n: nat)
    requires n >= 1
    ensures |Solution(n, A, C, B)| >= 1
  {
    SolutionLength(n, A, C, B);
    Pow2Positive(n - 1);
  }

  lemma {:induction false} Pow2Positive(n: nat)
    ensures Pow2(n) >= 1
  {
    if n > 0 { Pow2Positive(n - 1); }
  }

  function StepId(total: nat, i: nat): string {
    if i == 0 then "setup" else if i <= total then MoveId(i) else "verify"
  }

  /** The chain, position by position. */
  function Formula(moves: seq<Move>): (steps: seq<FormulaStep>)
    ensures |steps| == |moves| + 2
  {
    seq(|moves| + 2, i requires 0 <= i < |moves| + 2 =>
      FormulaStep(StepId(|moves|, i), if i == 0 then [] else [StepId(|moves|, i - 1)],
                  if 1 <= i <= |moves| then Some(moves[i - 1]) else None))
  }

  /** The steps by name: setup, move-1 to the last move, verify. */
  lemma FormulaNames(moves: seq<Move>, i: nat)
    requires i < |moves| + 2
    ensures var step := Formula(moves)[i];
            && (i == 0 ==> step == FormulaStep("setup", [], None))
            && (1 <= i <= |moves| ==>
                  step == FormulaStep("move-" + Itoa(i), [if i == 1 then "setup" else "move-" + Itoa(i - 1)], Some(moves[i - 1])))
            && (i == |moves| + 1 && moves != [] ==> step == FormulaStep("verify", ["move-" + Itoa(|moves|)], None))
  {
    hide Itoa;
  }

  lemma MoveIdIs(i: nat)
    ensures MoveId(i)[0] == 'm' && MoveId(i)[5..] == Itoa(i)
  {}

  lemma StepIdInjective(total: nat, i: nat, j: nat)
    requires i <= total + 1 && j <= total + 1 && StepId(total, i) == StepId(total, j)
    ensures i == j
  {
    MoveIdIs(i);
    MoveIdIs(j);
    if 1 <= i <= total && 1 <= j <= total {
      ItoaInjective(i, j);
    }
  }

  // ----- sessions -----

  /** The molecule is the only shared state: which steps are closed, in the order they
      were. A session remembers at most the one step it looked up. */
  datatype State = State(order: seq<string>, picks: map<nat, string>)

  datatype Action =
    | LookUp(session: nat, id: string)  // find a ready step
    | CloseStep(session: nat)           // close the step found; closing a closed step changes nothing
    | Crash(session: nat)               // the session is lost with what it remembers

  predicate IsReady(steps: seq<FormulaStep>, order: seq<string>, id: string) {
    id !in order && exists s | s in steps :: s.id == id && forall n | n in s.needs :: n in order
  }

  predicate Allowed(steps: seq<FormulaStep>, s: State, a: Action) {
    match a
    case LookUp(session, id) => session !in s.picks && IsReady(steps, s.order, id)
    case CloseStep(session) => session in s.picks
    case Crash(session) => true
  }

  function Act(s: State, a: Action): State {
    match a
    case LookUp(session, id) => s.(picks := s.picks[session := id])
    case CloseStep(session) =>
      if session !in s.picks then s
      else
        var id := s.picks[session];
        State(if id in s.order then s.order else s.order + [id], s.picks - {session})
    case Crash(session) => s.(picks := s.picks - {session})
  }

  /** Where any number of sessions, overlapping or one after another, have got to. */
  function Outcome(actions: seq<Action>): State {
    if actions == [] then State([], map[])
    else Act(Outcome(actions[..|actions| - 1]), actions[|actions| - 1])
  }

  predicate IsRun(steps: seq<FormulaStep>, actions: seq<Action>) {
    actions != [] ==>
      var n := |actions| - 1;
      IsRun(steps, actions[..n]) && Allowed(steps, Outcome(actions[..n]), actions[n])
  }

  /** Nothing is left to look up. */
  predicate Finished(steps: seq<FormulaStep>, s: State) {
    forall x | x in steps :: !IsReady(steps, s.order, x.id)
  }

  function Ids(total: nat): seq<string> {
    seq(total + 2, i requires 0 <= i < total + 2 => StepId(total, i))
  }

  /** After k closings exactly the first k steps are closed, in order, and a session can
      only remember one of those or the next. */
  ghost predicate InStep(moves: seq<Move>, s: State, k: nat) {
    && k <= |moves| + 2 && s.order == Ids(|moves|)[..k]
    && forall p | p in s.picks :: s.picks[p] in s.order || (k < |moves| + 2 && s.picks[p] == StepId(|moves|, k))
  }

  lemma InOrderIff(total: nat, k: nat, i: nat)
    requires k <= total + 2 && i <= total + 1
    ensures StepId(total, i) in Ids(total)[..k] <==> i < k
  {
    if i < k {
      assert Ids(total)[..k][i] == StepId(total, i);
    } else if StepId(total, i) in Ids(total)[..k] {
      var j :| 0 <= j < k && Ids(total)[..k][j] == StepId(total, i);
      StepIdInjective(total, i, j);
    }
  }

  /** The one ready step after k closings is step k. */
  lemma ReadyIsNext(moves: seq<Move>, k: nat, id: string)
    requires moves != [] && k <= |moves| + 2
    ensures IsReady(Formula(moves), Ids(|moves|)[..k], id) <==> k < |moves| + 2 && id == StepId(|moves|, k)
  {
    hide StepId;
    var total, steps, order := |moves|, Formula(moves), Ids(|moves|)[..k];
    if IsReady(steps, order, id) {
      var s :| s in steps && s.id == id && forall n | n in s.needs :: n in order;
      var i :| 0 <= i < |steps| && steps[i] == s;
      InOrderIff(total, k, i);
      if i > 0 {
        assert s.needs == [StepId(total, i - 1)] && StepId(total, i - 1) in s.needs;
        InOrderIff(total, k, i - 1);
      }
    }
    if k < total + 2 && id == StepId(total, k) {
      NextIsReady(moves, k);
    }
  }

  lemma NextIsReady(moves: seq<Move>, k: nat)
    requires moves != [] && k < |moves| + 2
    ensures IsReady(Formula(moves), Ids(|moves|)[..k], StepId(|moves|, k))
  {
    hide StepId;
    var s := Formula(moves)[k];
    assert s in Formula(moves);
    InOrderIff(|moves|, k, k);
    if k > 0 {
      InOrderIff(|moves|, k, k - 1);
      assert s.needs == [StepId(|moves|, k - 1)];
    }
  }

  lemma {:induction false} RunsStayInStep(moves: seq<Move>, actions: seq<Action>) returns (k: nat)
    requires moves != [] && IsRun(Formula(moves), actions)
    ensures InStep(moves, Outcome(actions), k)
  {
    hide StepId, Formula, IsReady;
    if actions == [] {
      k := 0;
    } else {
      var n := |actions| - 1;
      k := RunsStayInStep(moves, actions[..n]);
      var s, a := Outcome(actions[..n]), actions[n];
      if a.LookUp? {
        ReadyIsNext(moves, k, a.id);
      } else if a.CloseStep? && s.picks[a.session] !in s.order {
        assert Ids(|moves|)[..k + 1] == Ids(|moves|)[..k] + [StepId(|moves|, k)];
        k := k + 1;
      }
    }
  }

  // ----- the moves made -----

  function MoveOf(steps: seq<FormulaStep>, id: string): seq<Move> {
    if steps == [] then []
    else if steps[0].id == id then (if steps[0].move.Some? then [steps[0].move.value] else [])
    else MoveOf(steps[1..], id)
  }

  /** The moves of the closed steps, in closing order. */
  function Made(steps: seq<FormulaStep>, order: seq<string>): seq<Move> {
    if order == [] then [] else Made(steps, order[..|order| - 1]) + MoveOf(steps, order[|order| - 1])
  }

  lemma {:induction false} MoveOfAt(steps: seq<FormulaStep>, i: nat)
    requires i < |steps| && forall j | 0 <= j < i :: steps[j].id != steps[i].id
    ensures MoveOf(steps, steps[i].id) == if steps[i].move.Some? then [steps[i].move.value] else []
  {
    if i > 0 {
      assert forall j | 0 <= j < i - 1 :: steps[1..][j] == steps[j + 1];
      MoveOfAt(steps[1..], i - 1);
    }
  }

  function MovesAfter(moves: seq<Move>, k: nat): seq<Move> {
    if k == 0 then [] else if k - 1 <= |moves| then moves[..k - 1] else moves
  }

  lemma {:induction false} MadeAfter(moves: seq<Move>, k: nat)
    requires k <= |moves| + 2
    ensures Made(Formula(moves), Ids(|moves|)[..k]) == MovesAfter(moves, k)
  {
    hide StepId, MoveOf, Formula;
    if k > 0 {
      MadeAfter(moves, k - 1);
      var order := Ids(|moves|)[..k];
      assert order[..k - 1] == Ids(|moves|)[..k - 1] && order[k - 1] == StepId(|moves|, k - 1);
      MoveOfStep(moves, k - 1);
    }
  }

  lemma MoveOfStep(moves: seq<Move>, i: nat)
    requires i < |moves| + 2
    ensures MoveOf(Formula(moves), StepId(|moves|, i)) == if 1 <= i <= |moves| then [moves[i - 1]] else []
  {
    hide StepId;
    var steps := Formula(moves);
    forall j | 0 <= j < i ensures steps[j].id != steps[i].id {
      if steps[j].id == steps[i].id { StepIdInjective(|moves|, j, i); }
    }
    MoveOfAt(steps, i);
  }

  /** At every point of every run the moves made so far are a prefix of the solution and
      legal from the start position. */
  lemma MovesMadeAreLegal(n: nat, actions: seq<Action>) returns (c: Config)
    requires n >= 1 && IsRun(Formula(Solution(n, A, C, B)), actions)
    ensures var made := Made(Formula(Solution(n, A, C, B)), Outcome(actions).order);
            made <= Solution(n, A, C, B) && Leads(AllOn(n, A), made, c)
  {
    var moves := Solution(n, A, C, B);
    SolutionNonEmpty(n);
    var k := RunsStayInStep(moves, actions);
    MadeAfter(moves, k);
    SolutionLegal(n, AllOn(n, A), A, C, B);
    c := LeadsSplit(AllOn(n, A), moves, Moved(n, AllOn(n, A), C), |MovesAfter(moves, k)|);
  }

  lemma SolutionNonEmpty(n: nat)
    requires n >= 1
    ensures Solution(n, A, C, B) != []
  {}

  lemma FinishedMeansAll(moves: seq<Move>, s: State, k: nat)
    requires moves != [] && InStep(moves, s, k) && Finished(Formula(moves), s)
    ensures k == |moves| + 2
  {
    hide StepId, IsReady;
    if k < |moves| + 2 {
      var next := Formula(moves)[k];
      ReadyIsNext(moves, k, next.id);
    }
  }

  /** Different sessions, same outcome: every run that has nothing left to do, whatever
      sessions it was split over and wherever they crashed, closed all steps in order and
      made exactly the moves of the solution, which take the tower from A to C. */
  lemma EveryFinishedRunSolves(n: nat, actions: seq<Action>)
    requires n >= 1 && IsRun(Formula(Solution(n, A, C, B)), actions)
    requires Finished(Formula(Solution(n, A, C, B)), Outcome(actions))
    ensures Outcome(actions).order == Ids(|Solution(n, A, C, B)|)
    ensures Made(Formula(Solution(n, A, C, B)), Outcome(actions).order) == Solution(n, A, C, B)
    ensures Leads(AllOn(n, A), Solution(n, A, C, B), AllOn(n, C))
  {
    var moves := Solution(n, A, C, B);
    SolutionNonEmpty(n);
    var k := RunsStayInStep(moves, actions);
    FinishedMeansAll(moves, Outcome(actions), k);
    assert Ids(|moves|)[..k] == Ids(|moves|);
    MadeAfter(moves, k);
    SolutionLegal(n, AllOn(n, A), A, C, B);
    assert Moved(n, AllOn(n, A), C) == AllOn(n, C);
  }
}
