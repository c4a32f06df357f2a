/** Beads directories that redirect to other beads directories. */
module Redirect {
  import opened Text
  import opened Paths

  const BEADS := ".beads"

  function RedirectFile(beadsDir: Path): Path {
    beadsDir + ["redirect"]
  }

  /** Where a beads directory redirects to; the target is relative to its parent. */
  function Next(t: Tree, beadsDir: Path): Option<Path> {
    match ReadFile(t, RedirectFile(beadsDir))
    case None => None
    case Some(data) => if TrimSpace(data) == "" then None else Some(JoinPath(Dir(beadsDir), TrimSpace(data)))
  }

  /** `resolveBeadsDirWithDepth`. */
  function ResolveWithDepth(t: Tree, beadsDir: Path, maxDepth: int): Path
    decreases maxDepth
  {
    if maxDepth <= 0 then beadsDir
    else
      match Next(t, beadsDir)
      case None => beadsDir
      case Some(resolved) => if resolved == beadsDir then beadsDir else ResolveWithDepth(t, resolved, maxDepth - 1)
  }

  /** The beads directory of a directory, or of the parent of a beads directory. */
  function OwnBeadsDir(workDir: Path): Path {
    if workDir != [] && workDir[|workDir| - 1] == BEADS then workDir else workDir + [BEADS]
  }

  /** What `ResolveBeadsDir` returns. */
  function Resolved(t: Tree, workDir: Path): Path {
    var beadsDir := OwnBeadsDir(workDir);
    match Next(t, beadsDir)
    case None => beadsDir
    case Some(resolved) => if resolved == beadsDir then beadsDir else ResolveWithDepth(t, resolved, 3)
  }

  // ----- chains of redirects -----

  function Chain(t: Tree, beadsDir: Path, hops: nat): Path {
    if hops == 0 then beadsDir
    else
      var p := Chain(t, beadsDir, hops - 1);
      Next(t, p).GetOr(p)
  }

  /** No redirect, or one that points to itself. */
  predicate Settled(t: Tree, beadsDir: Path) {
    Next(t, beadsDir).GetOr(beadsDir) == beadsDir
  }

  lemma {:induction false} ChainNext(t: Tree, beadsDir: Path, hops: nat)
    ensures Chain(t, Next(t, beadsDir).GetOr(beadsDir), hops) == Chain(t, beadsDir, hops + 1)
  {
    if hops > 0 {
      ChainNext(t, beadsDir, hops - 1);
    }
  }

  lemma ChainStarts(t: Tree, beadsDir: Path)
    ensures Chain(t, beadsDir, 0) == beadsDir
  {}

  lemma {:induction false} DepthFollows(t: Tree, beadsDir: Path, maxDepth: nat) returns (hops: nat)
    ensures hops <= maxDepth && ResolveWithDepth(t, beadsDir, maxDepth) == Chain(t, beadsDir, hops)
    ensures hops == maxDepth || Settled(t, Chain(t, beadsDir, hops))
    decreases maxDepth
  {
    hide Next, Chain;
    hops := 0;
    assert Chain(t, beadsDir, 0) == beadsDir by { ChainStarts(t, beadsDir); }
    if maxDepth > 0 && !Settled(t, beadsDir) {
      var next := Next(t, beadsDir).value;
      hops := DepthFollows(t, next, maxDepth - 1);
      ChainNext(t, beadsDir, hops);
      hops := hops + 1;
    }
  }

  /** Resolution follows the chain of redirects to where it settles, or four redirects far. */
  lemma ResolvedFollows(t: Tree, workDir: Path) returns (hops: nat)
    ensures hops <= 4 && Resolved(t, workDir) == Chain(t, OwnBeadsDir(workDir), hops)
    ensures hops == 4 || Settled(t, Resolved(t, workDir))
  {
    var beadsDir := OwnBeadsDir(workDir);
    hide Next, Chain, ResolveWithDepth;
    hops := 0;
    ChainStarts(t, beadsDir);
    if !Settled(t, beadsDir) {
      var next := Next(t, beadsDir).value;
      hops := DepthFollows(t, next, 3);
      ChainNext(t, beadsDir, hops);
      hops := hops + 1;
    }
  }

  // ----- the target of a worktree's redirect -----

  function RigRoot(townRoot: Path, parts: seq<string>): Path
    requires |parts| >= 1
  {
    Go(townRoot, parts[0])
  }

  function MayorBeads(rigRoot: Path): Path {
    rigRoot + ["mayor", "rig", BEADS]
  }

  predicate RigHasDatabase(t: Tree, rigRoot: Path) {
    rigRoot + [BEADS] in t && (rigRoot + [BEADS, "dolt"] in t || rigRoot + [BEADS, "beads.db"] in t)
  }

  predicate UsesMayorFallback(t: Tree, rigRoot: Path) {
    !RigHasDatabase(t, rigRoot) && !Missing(t, MayorBeads(rigRoot))
  }

  function Upwards(n: nat): string {
    if n == 0 then "" else "../" + Upwards(n - 1)
  }

  /** The rig's own redirect, or its beads directory. */
  function RigTarget(t: Tree, rigRoot: Path): string {
    var data := TrimSpace(ReadFile(t, RedirectFile(rigRoot + [BEADS])).GetOr(""));
    if data == "" then BEADS else data
  }

  /** `ComputeRedirectTarget`: the text of the redirect, None for its errors. */
  function Target(t: Tree, townRoot: Path, worktree: Path): Option<string> {
    var parts := Rel(townRoot, worktree);
    if |parts| < 2 || parts[0] == "mayor" || parts[1] == "mayor" then None
    else
      var rigRoot := RigRoot(townRoot, parts);
      if rigRoot + [BEADS] !in t && Missing(t, MayorBeads(rigRoot)) then None
      else if UsesMayorFallback(t, rigRoot) then Some(Upwards(|parts| - 1) + "mayor/rig/.beads")
      else Some(Upwards(|parts| - 1) + RigTarget(t, rigRoot))
  }

  /** The worktree is at most one level outside the town, so that going up its relative path
      leads to its rig. */
  predicate Anchored(townRoot: Path, worktree: Path) {
    |Rel(townRoot, worktree)| >= 2 && Rel(townRoot, worktree)[1] != ".."
  }

  lemma RelShape(townRoot: Path, worktree: Path)
    requires CleanPath(worktree) && townRoot != worktree
    ensures var n := Common(townRoot, worktree);
            var parts := Rel(townRoot, worktree);
            |parts| == |townRoot| - n + |worktree| - n &&
            (|parts| >= 2 ==> (parts[1] == ".." <==> |townRoot| - n >= 2)) &&
            (|parts| >= 1 ==> parts[0] == if n < |townRoot| then ".." else worktree[n])
  {
    var n := Common(townRoot, worktree);
    UpsLength(|townRoot| - n);
    assert townRoot[..|townRoot|] == townRoot && worktree[..|worktree|] == worktree;
    var parts := Rel(townRoot, worktree);
    if |parts| >= 2 && |townRoot| - n < 2 {
      assert parts[1] in worktree;
    }
  }

  /** Going up as far as the relative path is long leads to the rig root for exactly the
      anchored worktrees. */
  lemma AnchorExact(townRoot: Path, worktree: Path)
    requires CleanPath(townRoot) && CleanPath(worktree) && |Rel(townRoot, worktree)| >= 2
    ensures var parts := Rel(townRoot, worktree);
            Walk(worktree, Ups(|parts| - 1)) == RigRoot(townRoot, parts) <==> Anchored(townRoot, worktree)
  {
    var parts := Rel(townRoot, worktree);
    var n := Common(townRoot, worktree);
    RelShape(townRoot, worktree);
    WalkUp(worktree, |parts| - 1);
    if n < |townRoot| {
      assert RigRoot(townRoot, parts) == townRoot[..|townRoot| - 1];
    } else {
      assert Name(worktree[n]);
      assert RigRoot(townRoot, parts) == townRoot + [worktree[n]];
      assert townRoot == worktree[..n];
    }
  }

  lemma UpwardsOnce(n: nat, rest: string)
    requires n > 0
    ensures Split(Upwards(n) + rest, '/') == [".."] + Split(Upwards(n - 1) + rest, '/')
  {
    var more := Upwards(n - 1) + rest;
    assert Upwards(n) + rest == ".." + ['/'] + more;
    hide Upwards, Split;
    SplitAppend("..", more, '/');
    SplitFree("..", '/');
  }

  lemma {:induction false} UpwardsSplits(n: nat, rest: string)
    ensures Split(Upwards(n) + rest, '/') == Ups(n) + Split(rest, '/')
  {
    hide Split;
    if n == 0 {
      assert Upwards(0) + rest == rest && Ups(0) + Split(rest, '/') == Split(rest, '/');
    } else {
      UpwardsOnce(n, rest);
      UpwardsSplits(n - 1, rest);
      assert [".."] + (Ups(n - 1) + Split(rest, '/')) == Ups(n) + Split(rest, '/');
    }
  }

  /** A redirect text of a worktree leads where its last part leads from the rig root. */
  lemma TargetLeads(townRoot: Path, worktree: Path, rest: string)
    requires CleanPath(townRoot) && CleanPath(worktree) && Anchored(townRoot, worktree)
    ensures var parts := Rel(townRoot, worktree);
            JoinPath(worktree, Upwards(|parts| - 1) + rest) == JoinPath(RigRoot(townRoot, parts), rest)
  {
    var parts := Rel(townRoot, worktree);
    UpwardsSplits(|parts| - 1, rest);
    WalkAppend(worktree, Ups(|parts| - 1), Split(rest, '/'));
    AnchorExact(townRoot, worktree);
  }

  // ----- what a set-up redirect leads to -----

  /** The redirect file of a worktree was written, and no file outside its beads directory changed. */
  ghost predicate WroteRedirect(before: Tree, after: Tree, worktree: Path, text: string) {
    && ReadFile(after, RedirectFile(worktree + [BEADS])) == Some(text + "\n")
    && forall p | !Under(worktree + [BEADS], p) :: ReadFile(after, p) == ReadFile(before, p)
  }

  lemma TrimNewline(text: string)
    requires Trimmed(text) && text != ""
    ensures TrimSpace(text + "\n") == text
  {
    TrimRightAppend(text, "\n");
    assert "\n"[..0] == "";
    assert TrimLeft(text + "\n") == text + "\n";
  }

  lemma TextIsTrimmed(n: nat, rest: string)
    requires n >= 1 && rest != "" && Trimmed(rest)
    ensures Trimmed(Upwards(n) + rest) && Upwards(n) + rest != ""
  {
    assert Upwards(n)[0] == '.';
    assert (Upwards(n) + rest)[|Upwards(n) + rest| - 1] == rest[|rest| - 1];
  }

  /** The worktree's first hop is where the text's last part leads from the rig root. */
  lemma FirstHop(before: Tree, after: Tree, townRoot: Path, worktree: Path, rest: string)
    requires CleanPath(townRoot) && CleanPath(worktree) && Anchored(townRoot, worktree) && rest != "" && Trimmed(rest)
    requires var parts := Rel(townRoot, worktree);
             WroteRedirect(before, after, worktree, Upwards(|parts| - 1) + rest)
    ensures Next(after, worktree + [BEADS]) == Some(JoinPath(RigRoot(townRoot, Rel(townRoot, worktree)), rest))
  {
    var parts := Rel(townRoot, worktree);
    var text := Upwards(|parts| - 1) + rest;
    TextIsTrimmed(|parts| - 1, rest);
    TrimNewline(text);
    TargetLeads(townRoot, worktree, rest);
    hide Upwards, TrimSpace, Rel, RigRoot, Walk, Trimmed;
    assert Dir(worktree + [BEADS]) == worktree;
  }

  /** Not itself called like a beads directory; `ResolveBeadsDir` takes such a one for the beads
      directory of its parent. */
  predicate Plain(p: Path) {
    p == [] || p[|p| - 1] != BEADS
  }

  lemma OwnTarget(rigRoot: Path)
    ensures JoinPath(rigRoot, BEADS) == rigRoot + [BEADS] && Trimmed(BEADS) && BEADS != ""
  {
    SplitFree(BEADS, '/');
    hide Split;
    assert Walk(rigRoot + [BEADS], []) == rigRoot + [BEADS];
    assert [BEADS][1..] == [] && Name(BEADS);
  }

  lemma RigTargetLeads(t: Tree, rigRoot: Path)
    ensures RigTarget(t, rigRoot) != "" && Trimmed(RigTarget(t, rigRoot))
    ensures Next(t, rigRoot + [BEADS]).GetOr(rigRoot + [BEADS]) == JoinPath(rigRoot, RigTarget(t, rigRoot))
  {
    var data := ReadFile(t, RedirectFile(rigRoot + [BEADS])).GetOr("");
    TrimSpaceTrims(data);
    OwnTarget(rigRoot);
    assert TrimSpace("") == "";
    hide TrimSpace, Trimmed, JoinPath;
    assert Dir(rigRoot + [BEADS]) == rigRoot;
  }

  /** After SetupRedirect without the mayor fallback, the beads directory of a worktree at any
      depth resolves to the same as that of its rig root. */
  lemma SharesRigBeads(before: Tree, after: Tree, townRoot: Path, worktree: Path)
    requires CleanPath(townRoot) && CleanPath(worktree) && Anchored(townRoot, worktree)
    requires var rigRoot := RigRoot(townRoot, Rel(townRoot, worktree));
             !UsesMayorFallback(before, rigRoot)
    requires Target(before, townRoot, worktree).Some?
    requires WroteRedirect(before, after, worktree, Target(before, townRoot, worktree).value)
    ensures var rigRoot := RigRoot(townRoot, Rel(townRoot, worktree));
            Resolved(after, worktree + [BEADS]) == Resolved(after, rigRoot + [BEADS]) &&
            (Plain(worktree) && Plain(rigRoot) ==> Resolved(after, worktree) == Resolved(after, rigRoot))
  {
    var parts := Rel(townRoot, worktree);
    var rigRoot := RigRoot(townRoot, parts);
    RigIsShorter(townRoot, worktree);
    TargetWithoutFallback(before, townRoot, worktree);
    RigTargetLeads(before, rigRoot);
    FirstHop(before, after, townRoot, worktree, RigTarget(before, rigRoot));
    RigRedirectKept(before, after, rigRoot, worktree);
    RigTargetLeads(after, rigRoot);
    SameDestination(after, worktree, rigRoot);
    hide *;
  }

  lemma TargetWithoutFallback(t: Tree, townRoot: Path, worktree: Path)
    requires Target(t, townRoot, worktree).Some?
    requires !UsesMayorFallback(t, RigRoot(townRoot, Rel(townRoot, worktree)))
    ensures Target(t, townRoot, worktree) ==
            Some(Upwards(|Rel(townRoot, worktree)| - 1) + RigTarget(t, RigRoot(townRoot, Rel(townRoot, worktree))))
  {
    hide Rel, RigRoot, Upwards, RigTarget, UsesMayorFallback;
  }

  lemma RigIsShorter(townRoot: Path, worktree: Path)
    requires CleanPath(townRoot) && CleanPath(worktree) && Anchored(townRoot, worktree)
    ensures |RigRoot(townRoot, Rel(townRoot, worktree))| < |worktree|
  {
    AnchorExact(townRoot, worktree);
    WalkUp(worktree, |Rel(townRoot, worktree)| - 1);
    RelShape(townRoot, worktree);
    hide Rel, RigRoot;
  }

  lemma RigRedirectKept(before: Tree, after: Tree, rigRoot: Path, worktree: Path)
    requires |rigRoot| < |worktree|
    requires forall p | !Under(worktree + [BEADS], p) :: ReadFile(after, p) == ReadFile(before, p)
    ensures RigTarget(after, rigRoot) == RigTarget(before, rigRoot)
  {
    var file := RedirectFile(rigRoot + [BEADS]);
    assert |file| == |rigRoot| + 2 && file[|file| - 1] == "redirect" && "redirect"[0] != BEADS[0];
    assert (worktree + [BEADS])[|worktree|] == BEADS;
    assert !Under(worktree + [BEADS], file);
    hide TrimSpace;
  }

  /** Two directories whose beads directories have the same next hop, or one of which is the
      next hop of the other and settled, resolve alike. */
  lemma SameDestination(t: Tree, worktree: Path, rigRoot: Path)
    requires |rigRoot| < |worktree|
    requires Next(t, worktree + [BEADS]) == Some(Next(t, rigRoot + [BEADS]).GetOr(rigRoot + [BEADS]))
    ensures Resolved(t, worktree + [BEADS]) == Resolved(t, rigRoot + [BEADS])
    ensures Plain(worktree) && Plain(rigRoot) ==> Resolved(t, worktree) == Resolved(t, rigRoot)
  {
    hide Next;
    var own, rigs := worktree + [BEADS], rigRoot + [BEADS];
    assert OwnBeadsDir(own) == own && OwnBeadsDir(rigs) == rigs;
    var hop := Next(t, own).value;
    assert ResolveWithDepth(t, hop, 3) ==
           match Next(t, hop)
           case None => hop
           case Some(r) => if r == hop then hop else ResolveWithDepth(t, r, 2);
  }

  /** The fallback: the rig has no beads directory with a database in it, and the mayor's clone has,
      or may have, one. */
  lemma FallbackIff(t: Tree, rigRoot: Path)
    ensures UsesMayorFallback(t, rigRoot) <==>
            && (rigRoot + [".beads"] in t ==> rigRoot + [".beads", "dolt"] !in t && rigRoot + [".beads", "beads.db"] !in t)
            && (rigRoot + ["mayor", "rig", ".beads"] in t ||
                exists n | 0 <= n < |rigRoot| + 3 :: IsFile(t, (rigRoot + ["mayor", "rig", ".beads"])[..n]))
  {}

  /** A redirect is refused in the mayor's directories, fewer than two levels below the town, and
      where neither the rig nor the mayor has a beads directory. */
  lemma RefusedIff(t: Tree, townRoot: Path, worktree: Path)
    ensures Target(t, townRoot, worktree).None? <==>
            var parts := Rel(townRoot, worktree);
            || |parts| < 2 || parts[0] == "mayor" || parts[1] == "mayor"
            || (Go(townRoot, parts[0]) + [".beads"] !in t && Missing(t, Go(townRoot, parts[0]) + ["mayor", "rig", ".beads"]))
  {
    hide Rel, Go, Upwards, UsesMayorFallback, RigTarget;
  }

  /** With the mayor fallback it resolves along the chain that starts at mayor/rig/.beads. */
  lemma FallsBackToMayor(before: Tree, after: Tree, townRoot: Path, worktree: Path)
    requires CleanPath(townRoot) && CleanPath(worktree) && Anchored(townRoot, worktree)
    requires UsesMayorFallback(before, RigRoot(townRoot, Rel(townRoot, worktree)))
    requires Target(before, townRoot, worktree).Some?
    requires WroteRedirect(before, after, worktree, Target(before, townRoot, worktree).value)
    ensures Resolved(after, worktree + [BEADS]) ==
            ResolveWithDepth(after, MayorBeads(RigRoot(townRoot, Rel(townRoot, worktree))), 3)
    ensures Plain(worktree) ==> Resolved(after, worktree) == Resolved(after, worktree + [BEADS])
  {
    var rigRoot := RigRoot(townRoot, Rel(townRoot, worktree));
    TargetWithFallback(before, townRoot, worktree);
    FirstHop(before, after, townRoot, worktree, "mayor/rig/.beads");
    MayorTarget(rigRoot);
    hide Rel, RigRoot, Target, WroteRedirect, JoinPath, UsesMayorFallback, Next;
    assert OwnBeadsDir(worktree + [BEADS]) == worktree + [BEADS];
    assert Next(after, worktree + [BEADS]) == Some(MayorBeads(rigRoot));
  }

  lemma TargetWithFallback(t: Tree, townRoot: Path, worktree: Path)
    requires Target(t, townRoot, worktree).Some?
    requires UsesMayorFallback(t, RigRoot(townRoot, Rel(townRoot, worktree)))
    ensures Target(t, townRoot, worktree) == Some(Upwards(|Rel(townRoot, worktree)| - 1) + "mayor/rig/.beads")
    ensures Trimmed("mayor/rig/.beads")
  {
    hide Rel, RigRoot, Upwards, UsesMayorFallback;
  }

  lemma MayorSplits()
    ensures Split("mayor/rig/.beads", '/') == ["mayor", "rig", BEADS]
  {
    hide Split;
    SplitAppend("mayor", "rig/.beads", '/');
    SplitAppend("rig", BEADS, '/');
    SplitFree("mayor", '/');
    SplitFree("rig", '/');
    SplitFree(BEADS, '/');
    assert "mayor" + ['/'] + "rig/.beads" == "mayor/rig/.beads";
    assert "rig" + ['/'] + BEADS == "rig/.beads";
  }

  lemma WalkDown(p: Path, a: string, b: string, c: string)
    requires Name(a) && Name(b) && Name(c)
    ensures Walk(p, [a, b, c]) == p + [a, b, c]
  {
    assert [a, b, c][1..] == [b, c] && [b, c][1..] == [c] && [c][1..] == [];
    assert Walk(p + [a] + [b], [c]) == p + [a] + [b] + [c];
  }

  lemma MayorTarget(rigRoot: Path)
    ensures JoinPath(rigRoot, "mayor/rig/.beads") == MayorBeads(rigRoot)
  {
    hide Split, Walk;
    MayorSplits();
    WalkDown(rigRoot, "mayor", "rig", BEADS);
  }
}
