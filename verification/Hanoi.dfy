/** The Towers of Hanoi formula generator: the move list, and the rules of the puzzle it
    is measured against. */
module Hanoi {
  datatype Peg = A | B | C

  datatype Move = Move(disk: nat, src: Peg, tgt: Peg)

  /** Where each disk is: index d - 1 holds the peg of disk d, disk 1 being the smallest. */
  type Config = seq<Peg>

  function Other(p: Peg, q: Peg): Peg
    requires p != q
  {
    if p != A && q != A then A else if p != B && q != B then B else C
  }

  function AllOn(n: nat, p: Peg): Config {
    seq(n, _ => p)
  }

  /** Only the top disk of a peg moves, and never onto a smaller one. */
  predicate Legal(c: Config, m: Move) {
    && 1 <= m.disk <= |c| && c[m.disk - 1] == m.src && m.src != m.tgt
    && forall d | 0 <= d < m.disk - 1 :: c[d] != m.src && c[d] != m.tgt
  }

  function After(c: Config, m: Move): Config
    requires Legal(c, m)
  {
    c[m.disk - 1 := m.tgt]
  }

  /** The configuration after a list of moves that are all legal when made. */
  ghost predicate Leads(c: Config, moves: seq<Move>, c': Config)
    decreases |moves|
  {
    if moves == [] then c == c'
    else Legal(c, moves[0]) && Leads(After(c, moves[0]), moves[1..], c')
  }

  function Pow2(n: nat): nat {
    if n == 0 then 1 else 2 * Pow2(n - 1)
  }

  /** The recursive solution. */
  function Solution(n: nat, src: Peg, tgt: Peg, aux: Peg): seq<Move> {
    if n == 0 then []
    else Solution(n - 1, src, aux, tgt) + [Move(n, src, tgt)] + Solution(n - 1, aux, tgt, src)
  }

  /** `hanoi_moves`: the recursion appends to the captured list. */
  class Solver {
    var moves: seq<Move>

    constructor ()
      ensures moves == []
    {
      moves := [];
    }

    method Solve(n: nat, src: Peg, tgt: Peg, aux: Peg)
      requires n >= 1
      modifies this
      ensures moves == old(moves) + Solution(n, src, tgt, aux)
    {
      if n == 1 {
        moves := moves + [Move(1, src, tgt)];
        assert Solution(0, src, aux, tgt) == [] == Solution(0, aux, tgt, src);
      } else {
        Solve(n - 1, src, aux, tgt);
        moves := moves + [Move(n, src, tgt)];
        Solve(n - 1, aux, tgt, src);
      }
    }
  }

  method HanoiMoves(n: nat) returns (moves: seq<Move>)
    requires n >= 1
    ensures moves == Solution(n, A, C, B)
  {
    var solver := new Solver();
    solver.Solve(n, A, C, B);
    moves := solver.moves;
  }

  // ----- legality and length -----

  lemma {:induction false} LeadsAppend(c: Config, a: seq<Move>, d: Config, b: seq<Move>, e: Config)
    requires Leads(c, a, d) && Leads(d, b, e)
    ensures Leads(c, a + b, e)
    decreases |a|
  {
    if a == [] {
      assert a + b == b;
    } else {
      assert (a + b)[1..] == a[1..] + b;
      LeadsAppend(After(c, a[0]), a[1..], d, b, e);
    }
  }

  function Moved(n: nat, c: Config, p: Peg): Config
    requires n <= |c|
  {
    AllOn(n, p) + c[n..]
  }

  /** From any configuration with the n smallest disks together, the solution is legal and
      moves exactly those disks. */
  lemma {:induction false} SolutionLegal(n: nat, c: Config, src: Peg, tgt: Peg, aux: Peg)
    requires src != tgt && tgt != aux && src != aux
    requires n <= |c| && c[..n] == AllOn(n, src)
    ensures Leads(c, Solution(n, src, tgt, aux), Moved(n, c, tgt))
  {
    if n == 0 {
      assert Moved(n, c, tgt) == c;
    } else {
      var d, m := Moved(n - 1, c, aux), Move(n, src, tgt);
      LargestCanMove(n, c, d, src, tgt, aux);
      var e := After(d, m);
      SolutionLegal(n - 1, c, src, aux, tgt);
      SolutionLegal(n - 1, e, aux, tgt, src);
      assert Leads(d, [m], e);
      LeadsAppend(c, Solution(n - 1, src, aux, tgt), d, [m], e);
      LeadsAppend(c, Solution(n - 1, src, aux, tgt) + [m], e, Solution(n - 1, aux, tgt, src), Moved(n, c, tgt));
    }
  }

  lemma LargestCanMove(n: nat, c: Config, d: Config, src: Peg, tgt: Peg, aux: Peg)
    requires src != tgt && tgt != aux && src != aux
    requires 1 <= n <= |c| && c[..n] == AllOn(n, src) && d == Moved(n - 1, c, aux)
    ensures c[..n - 1] == AllOn(n - 1, src) && Legal(d, Move(n, src, tgt))
    ensures var e := After(d, Move(n, src, tgt));
            |e| == |c| && e[..n - 1] == AllOn(n - 1, aux) && Moved(n - 1, e, tgt) == Moved(n, c, tgt)
  {
    assert c[..n - 1] == c[..n][..n - 1];
    assert c[n - 1] == c[..n][n - 1] == src && d[n - 1] == src;
  }

  lemma {:induction false} SolutionLength(n: nat, src: Peg, tgt: Peg, aux: Peg)
    ensures |Solution(n, src, tgt, aux)| == Pow2(n) - 1
  {
    if n > 0 {
      SolutionLength(n - 1, src, aux, tgt);
      SolutionLength(n - 1, aux, tgt, src);
    }
  }

  // ----- optimality -----

  predicate Below(moves: seq<Move>, n: nat) {
    forall m | m in moves :: m.disk < n
  }

  /** Moves of smaller disks leave disk n alone and are legal without it. */
  lemma {:induction false} WithoutLargest(n: nat, c: Config, moves: seq<Move>, c': Config)
    requires n >= 1 && |c| == n && Leads(c, moves, c') && Below(moves, n)
    ensures |c'| == n && c'[n - 1] == c[n - 1] && Leads(c[..n - 1], moves, c'[..n - 1])
    decreases |moves|
  {
    if moves != [] {
      var d := After(c, moves[0]);
      assert moves[0] in moves && Below(moves[1..], n);
      WithoutLargest(n, d, moves[1..], c');
      assert d[..n - 1] == After(c[..n - 1], moves[0]);
    }
  }

  lemma {:induction false} LeadsLength(c: Config, moves: seq<Move>, c': Config)
    requires Leads(c, moves, c')
    ensures |c'| == |c|
    decreases |moves|
  {
    if moves != [] {
      LeadsLength(After(c, moves[0]), moves[1..], c');
    }
  }

  /** When disk n may move, all smaller disks are on the peg it does not touch. */
  lemma SmallerAside(n: nat, c: Config, m: Move)
    requires |c| == n && m.disk == n && Legal(c, m)
    ensures c[..n - 1] == AllOn(n - 1, Other(m.src, m.tgt))
  {
    forall d | 0 <= d < n - 1 ensures c[d] == Other(m.src, m.tgt) {
      assert c[d] != m.src && c[d] != m.tgt;
    }
  }

  lemma {:induction false} LeadsSplit(c: Config, moves: seq<Move>, c': Config, i: nat) returns (d: Config)
    requires Leads(c, moves, c') && i <= |moves|
    ensures Leads(c, moves[..i], d) && Leads(d, moves[i..], c')
    decreases i
  {
    if i == 0 {
      d := c;
    } else {
      d := LeadsSplit(After(c, moves[0]), moves[1..], c', i - 1);
      assert moves[..i][1..] == moves[1..][..i - 1] && moves[1..][i - 1..] == moves[i..];
    }
  }

  lemma FirstOf(n: nat, moves: seq<Move>) returns (i: nat)
    requires !Below(moves, n) && forall m | m in moves :: m.disk <= n
    ensures i < |moves| && moves[i].disk == n && Below(moves[..i], n)
  {
    var x :| 0 <= x < |moves| && moves[x].disk >= n;
    i := 0;
    while moves[i].disk < n
      invariant i <= x && forall k | 0 <= k < i :: moves[k].disk < n
      decreases x - i
    {
      i := i + 1;
    }
  }

  lemma LastOf(n: nat, moves: seq<Move>) returns (j: nat)
    requires !Below(moves, n) && forall m | m in moves :: m.disk <= n
    ensures j < |moves| && moves[j].disk == n && forall k | j < k < |moves| :: moves[k].disk < n
  {
    var x :| 0 <= x < |moves| && moves[x].disk >= n;
    j := |moves| - 1;
    while moves[j].disk < n
      invariant x <= j < |moves| && forall k | j < k < |moves| :: moves[k].disk < n
      decreases j
    {
      j := j - 1;
    }
  }

  lemma {:induction false} DisksInRange(c: Config, moves: seq<Move>, c': Config)
    requires Leads(c, moves, c')
    ensures forall m | m in moves :: 1 <= m.disk <= |c|
    decreases |moves|
  {
    if moves != [] {
      DisksInRange(After(c, moves[0]), moves[1..], c');
      assert moves == [moves[0]] + moves[1..];
    }
  }

  lemma LargestMoves(n: nat, c: Config, moves: seq<Move>, c': Config)
    requires n >= 1 && |c| == n && |c'| == n && Leads(c, moves, c') && c'[n - 1] != c[n - 1]
    ensures !Below(moves, n) && forall m | m in moves :: m.disk <= n
  {
    DisksInRange(c, moves, c');
    if Below(moves, n) {
      WithoutLargest(n, c, moves, c');
    }
  }

  /** Up to the first move of the largest disk, the tower above it is moved aside. */
  lemma ClearsTheWay(n: nat, p: Peg, q: Peg, moves: seq<Move>) returns (i: nat, r: Peg)
    requires n >= 1 && p != q && Leads(AllOn(n, p), moves, AllOn(n, q))
    ensures i < |moves| && moves[i].disk == n && moves[i].src == p && moves[i].tgt != p && r == Other(p, moves[i].tgt)
    ensures Below(moves[..i], n) && Leads(AllOn(n - 1, p), moves[..i], AllOn(n - 1, r))
  {
    var start, end := AllOn(n, p), AllOn(n, q);
    LargestMoves(n, start, moves, end);
    i := FirstOf(n, moves);
    var d := LeadsSplit(start, moves, end, i);
    LeadsLength(start, moves[..i], d);
    WithoutLargest(n, start, moves[..i], d);
    SmallerAside(n, d, moves[i]);
    r := Other(moves[i].src, moves[i].tgt);
    assert start[..n - 1] == AllOn(n - 1, p);
  }

  /** After the last move of the largest disk, the tower is moved onto it. */
  lemma RebuildsTheTower(n: nat, p: Peg, q: Peg, moves: seq<Move>, i: nat) returns (j: nat, s: Peg)
    requires n >= 1 && p != q && Leads(AllOn(n, p), moves, AllOn(n, q))
    requires i < |moves| && moves[i].disk == n
    ensures i <= j < |moves| && moves[j].disk == n && moves[j].tgt == q && moves[j].src != q && s == Other(moves[j].src, q)
    ensures Leads(AllOn(n - 1, s), moves[j + 1..], AllOn(n - 1, q))
  {
    var start, end := AllOn(n, p), AllOn(n, q);
    LargestMoves(n, start, moves, end);
    j := LastOf(n, moves);
    var e := LeadsSplit(start, moves, end, j);
    LeadsLength(start, moves[..j], e);
    SmallerAside(n, e, moves[j]);
    var f := After(e, moves[j]);
    assert moves[j..][1..] == moves[j + 1..];
    WithoutLargest(n, f, moves[j + 1..], end);
    s := Other(moves[j].src, moves[j].tgt);
    assert f[..n - 1] == e[..n - 1] && end[..n - 1] == AllOn(n - 1, q);
  }

  /** No legal way of taking a tower of n disks from one peg to another is shorter than
      the solution, and the only one that is as short is the solution itself. */
  lemma {:induction false} SolutionOptimal(n: nat, p: Peg, q: Peg, moves: seq<Move>)
    requires p != q && Leads(AllOn(n, p), moves, AllOn(n, q))
    ensures |moves| >= Pow2(n) - 1
    ensures |moves| == Pow2(n) - 1 ==> moves == Solution(n, p, q, Other(p, q))
  {
    hide Leads, AllOn;
    if n > 0 {
      var i, r := ClearsTheWay(n, p, q, moves);
      var j, s := RebuildsTheTower(n, p, q, moves, i);
      SolutionOptimal(n - 1, p, r, moves[..i]);
      SolutionOptimal(n - 1, s, q, moves[j + 1..]);
      assert Pow2(n) == 2 * Pow2(n - 1);
      if |moves| == Pow2(n) - 1 {
        assert i == j && r == s == Other(p, q);
        assert moves[i] == Move(n, p, q);
        assert moves == moves[..i] + [moves[i]] + moves[i + 1..];
      }
    }
  }
}
