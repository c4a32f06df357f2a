/** Setting up a worktree's redirect, and resolving one, on a tree of files that changes. */
module RedirectSetup {
  import opened Text
  import opened Paths
  import opened Redirect

  // ----- runtime files -----

  /** `filepath.Match` on one path component: literals, * and ?. */
  predicate Matches(pattern: string, name: string)
    decreases |pattern| + |name|
  {
    if pattern == "" then name == ""
    else if pattern[0] == '*' then Matches(pattern[1..], name) || (name != "" && Matches(pattern, name[1..]))
    else name != "" && (pattern[0] == '?' || pattern[0] == name[0]) && Matches(pattern[1..], name[1..])
  }

  const RUNTIME_PATTERNS: seq<string> :=
    ["*.db", "*.db-*", "*.db?*", "daemon.lock", "daemon.log", "daemon.pid", "bd.sock", "sync-state.json", "last-touched",
     "metadata.json", ".local_version", "redirect", "beads.base.*", "beads.left.*", "beads.right.*", "issues.jsonl",
     "interactions.jsonl", "mq"]

  predicate MatchesSome(patterns: seq<string>, name: string) {
    exists p | p in patterns :: Matches(p, name)
  }

  /** An entry of the directory with a name that one of the patterns matches. */
  predicate RuntimeEntry(patterns: seq<string>, dir: Path, e: Path) {
    |e| == |dir| + 1 && Under(dir, e) && MatchesSome(patterns, e[|dir|])
  }

  /** The path is such an entry or below one. */
  predicate RuntimePath(patterns: seq<string>, dir: Path, p: Path) {
    |p| > |dir| && RuntimeEntry(patterns, dir, p[..|dir| + 1])
  }

  // ----- which names they are -----

  /** Its characters stand for themselves. */
  predicate Literal(word: string) {
    forall c | c in word :: c != '*' && c != '?'
  }

  lemma {:induction false} WordThen(word: string, rest: string, name: string)
    requires Literal(word)
    ensures Matches(word + rest, name) <==> word <= name && Matches(rest, name[|word|..])
  {
    if word == "" {
      assert word + rest == rest && name[0..] == name;
    } else {
      assert (word + rest)[1..] == word[1..] + rest && word[0] in word;
      assert forall c | c in word[1..] :: c in word;
      if name != "" {
        WordThen(word[1..], rest, name[1..]);
        assert word <= name <==> word[0] == name[0] && word[1..] <= name[1..];
        assert word <= name ==> name[1..][|word| - 1..] == name[|word|..];
      }
    }
  }

  lemma WordAlone(word: string, name: string)
    requires Literal(word)
    ensures Matches(word, name) <==> name == word
  {
    WordThen(word, "", name);
    assert word + "" == word;
  }

  lemma {:induction false} StarThen(rest: string, name: string)
    ensures Matches("*" + rest, name) <==> exists i | 0 <= i <= |name| :: Matches(rest, name[i..])
  {
    assert ("*" + rest)[1..] == rest && name[0..] == name;
    if name != "" {
      StarThen(rest, name[1..]);
      forall i | 0 < i <= |name| ensures name[i..] == name[1..][i - 1..] {}
    }
  }

  lemma StarTakesAll(name: string)
    ensures Matches("*", name)
    ensures Matches("?*", name) <==> name != ""
  {
    StarThen("", name);
    assert "*" + "" == "*" && name[|name|..] == "" && "?*"[1..] == "*";
    if name != "" {
      StarThen("", name[1..]);
      assert name[1..][|name| - 1..] == "";
    }
  }

  /** The part stands somewhere in the name. */
  predicate Contains(name: string, part: string) {
    exists i | 0 <= i <= |name| :: part <= name[i..]
  }

  /** The three database patterns together. */
  lemma DatabasePatterns(name: string)
    ensures Matches("*.db", name) || Matches("*.db-*", name) || Matches("*.db?*", name) <==> Contains(name, ".db")
  {
    assert "*" + ".db" == "*.db" && "*" + ".db-*" == "*.db-*" && "*" + ".db?*" == "*.db?*";
    assert ".db-" + "*" == ".db-*" && ".db" + "?*" == ".db?*";
    assert Literal(".db") && Literal(".db-") && ".db" <= ".db-";
    StarThen(".db", name);
    StarThen(".db-*", name);
    StarThen(".db?*", name);
    forall i | 0 <= i <= |name|
      ensures Matches(".db", name[i..]) <==> name[i..] == ".db"
      ensures Matches(".db-*", name[i..]) ==> ".db" <= name[i..]
      ensures Matches(".db?*", name[i..]) <==> ".db" <= name[i..] && name[i..] != ".db"
    {
      WordAlone(".db", name[i..]);
      WordThen(".db-", "*", name[i..]);
      WordThen(".db", "?*", name[i..]);
      hide Matches;
      if ".db" <= name[i..] {
        StarTakesAll(name[i..][3..]);
      }
    }
  }

  predicate RuntimeName(name: string) {
    name in ["daemon.lock", "daemon.log", "daemon.pid", "bd.sock", "sync-state.json", "last-touched", "metadata.json",
             ".local_version", "redirect", "issues.jsonl", "interactions.jsonl", "mq"]
  }

  lemma NamesAreLiteral(i: nat)
    requires 3 <= i < 12 || 15 <= i < 18
    ensures Literal(RUNTIME_PATTERNS[i])
  {}

  lemma MergePatterns(name: string)
    ensures Matches("beads.base.*", name) <==> "beads.base." <= name
    ensures Matches("beads.left.*", name) <==> "beads.left." <= name
    ensures Matches("beads.right.*", name) <==> "beads.right." <= name
  {
    assert Literal("beads.base.") && Literal("beads.left.") && Literal("beads.right.");
    WordThen("beads.base.", "*", name);
    WordThen("beads.left.", "*", name);
    WordThen("beads.right.", "*", name);
    assert "beads.base." + "*" == "beads.base.*" && "beads.left." + "*" == "beads.left.*" && "beads.right." + "*" == "beads.right.*";
    forall rest { StarTakesAll(rest); }
  }

  /** What is removed: whatever has .db in its name, the artifacts of merges, and twelve names. */
  lemma RuntimeIff(name: string)
    ensures MatchesSome(RUNTIME_PATTERNS, name) <==>
            || Contains(name, ".db")
            || "beads.base." <= name || "beads.left." <= name || "beads.right." <= name
            || RuntimeName(name)
  {
    DatabasePatterns(name);
    MergePatterns(name);
    forall i | 3 <= i < 12 || 15 <= i < 18 ensures Matches(RUNTIME_PATTERNS[i], name) <==> name == RUNTIME_PATTERNS[i] {
      NamesAreLiteral(i);
      WordAlone(RUNTIME_PATTERNS[i], name);
    }
    hide *;
    PatternsAre(name);
    NamesAre(name);
  }

  lemma NamesAre(name: string)
    ensures RuntimeName(name) <==> exists i | 3 <= i < 12 || 15 <= i < 18 :: name == RUNTIME_PATTERNS[i]
  {
    var all := RUNTIME_PATTERNS;
    assert RuntimeName(name) <==> name in all[3..12] + all[15..18] by {
      assert all[3..12] + all[15..18] ==
             ["daemon.lock", "daemon.log", "daemon.pid", "bd.sock", "sync-state.json", "last-touched", "metadata.json",
              ".local_version", "redirect", "issues.jsonl", "interactions.jsonl", "mq"];
    }
    hide RuntimeName;
    if name in all[3..12] {
      var j :| 0 <= j < 9 && all[3..12][j] == name;
      assert name == all[3 + j];
    }
    if name in all[15..18] {
      var j :| 0 <= j < 3 && all[15..18][j] == name;
      assert name == all[15 + j];
    }
    if i :| (3 <= i < 12 || 15 <= i < 18) && name == all[i] {
      assert if i < 12 then all[3..12][i - 3] == name else all[15..18][i - 15] == name;
    }
  }

  lemma PatternsAre(name: string)
    ensures MatchesSome(RUNTIME_PATTERNS, name) <==>
            || Matches("*.db", name) || Matches("*.db-*", name) || Matches("*.db?*", name)
            || Matches("beads.base.*", name) || Matches("beads.left.*", name) || Matches("beads.right.*", name)
            || exists i | 3 <= i < 12 || 15 <= i < 18 :: Matches(RUNTIME_PATTERNS[i], name)
  {
    hide Matches;
  }

  /** The tracked files of a beads directory are none of these. */
  lemma TrackedIsNotRuntime(name: string)
    requires name in ["formulas", "README.md", "config.yaml", ".gitignore"]
    ensures !MatchesSome(RUNTIME_PATTERNS, name)
  {
    hide *;
    RuntimeIff(name);
    TrackedLetters(name);
    if RuntimeName(name) {
      RuntimeLetters(name);
    }
  }

  lemma TrackedLetters(name: string)
    requires name in ["formulas", "README.md", "config.yaml", ".gitignore"]
    ensures name[0] in {'f', 'R', 'c', '.'} && (name[0] == '.' ==> name[1] == 'g')
    ensures !("beads.base." <= name) && !("beads.left." <= name) && !("beads.right." <= name) && !Contains(name, ".db")
  {
    assert forall i | 0 <= i < |name| - 1 :: name[i] == '.' ==> name[i + 1] != 'd';
    assert name[0] != 'b';
    if Contains(name, ".db") {
      ContainsMeans(name);
    }
  }

  lemma ContainsMeans(name: string)
    requires Contains(name, ".db")
    ensures exists i | 0 <= i < |name| - 1 :: name[i] == '.' && name[i + 1] == 'd'
  {
    var i :| 0 <= i <= |name| && ".db" <= name[i..];
    assert name[i..][0] == '.' && name[i..][1] == 'd';
    assert name[i] == '.' && name[i + 1] == 'd';
  }

  lemma RuntimeLetters(name: string)
    requires RuntimeName(name)
    ensures name[0] in {'d', 'b', 's', 'l', 'm', '.', 'r', 'i'} && (name[0] == '.' ==> name[1] == 'l')
  {}

  // ----- the file tree -----

  class FileTree {
    const readable: bool  // every directory can be listed
    const writable: bool  // every file can be written and removed, every directory made
    var tree: Tree

    constructor (tree: Tree, readable: bool, writable: bool)
      ensures this.tree == tree && this.readable == readable && this.writable == writable
    {
      this.tree, this.readable, this.writable := tree, readable, writable;
    }

    /** `ResolveBeadsDir`: a redirect to itself is removed on the way (if that works). */
    method ResolveBeadsDir(workDir: Path) returns (r: Path)
      modifies this
      ensures r == Resolved(old(tree), workDir)
      ensures tree == old(tree) ||
              (Next(old(tree), r) == Some(r) && r == OwnBeadsDir(workDir) && tree == old(tree) - {RedirectFile(r)})
      ensures Resolved(tree, workDir) == r
      ensures writable && Next(old(tree), OwnBeadsDir(workDir)) == Some(OwnBeadsDir(workDir)) ==>
                tree == old(tree) - {RedirectFile(r)}
    {
      var dir := if workDir != [] && workDir[|workDir| - 1] == BEADS then Dir(workDir) else workDir;
      var beadsDir := dir + [BEADS];
      assert beadsDir == OwnBeadsDir(workDir) && Dir(beadsDir) == dir;
      var data := ReadFile(tree, RedirectFile(beadsDir));
      if data.None? || TrimSpace(data.value) == "" {
        return beadsDir;
      }
      var resolved := JoinPath(dir, TrimSpace(data.value));
      assert Next(tree, beadsDir) == Some(resolved);
      hide Next;
      if resolved == beadsDir {
        var removable: bool := *;
        if removable || writable {
          tree := tree - {RedirectFile(beadsDir)};
          assert Next(tree, beadsDir) == None by { GoneRedirect(tree, beadsDir); }
        }
        return beadsDir;
      }
      return ResolveWithDepth(tree, resolved, 3);
    }

    /** `ComputeRedirectTarget`. */
    method ComputeRedirectTarget(townRoot: Path, worktree: Path) returns (r: Option<string>)
      ensures r == Target(tree, townRoot, worktree)
    {
      var parts := Rel(townRoot, worktree);
      if |parts| < 2 {
        return None;
      }
      if parts[0] == "mayor" || parts[1] == "mayor" {
        return None;
      }
      var rigRoot := Go(townRoot, parts[0]);
      var rigBeadsPath, mayorBeadsPath := rigRoot + [BEADS], rigRoot + ["mayor", "rig", BEADS];
      var usesMayorFallback := false;
      var rigBeadsExists := rigBeadsPath in tree;
      var rigHasDB := false;
      if rigBeadsExists {
        if rigBeadsPath + ["dolt"] in tree {
          rigHasDB := true;
        } else if rigBeadsPath + ["beads.db"] in tree {
          rigHasDB := true;
        }
      }
      assert rigBeadsPath + ["dolt"] == rigRoot + [BEADS, "dolt"];
      assert rigBeadsPath + ["beads.db"] == rigRoot + [BEADS, "beads.db"];
      assert rigHasDB == RigHasDatabase(tree, rigRoot);
      if !rigBeadsExists || !rigHasDB {
        if Missing(tree, mayorBeadsPath) {
          if !rigBeadsExists {
            return None;
          }
        } else {
          usesMayorFallback := true;
        }
      }
      assert usesMayorFallback == UsesMayorFallback(tree, rigRoot);
      var upPath := Upwards(|parts| - 1);
      if usesMayorFallback {
        return Some(upPath + "mayor/rig/.beads");
      }
      var redirectPath := upPath + BEADS;
      var data := ReadFile(tree, RedirectFile(rigBeadsPath));
      if data.Some? {
        var rigRedirectTarget := TrimSpace(data.value);
        if rigRedirectTarget != "" {
          redirectPath := upPath + rigRedirectTarget;
        }
      }
      assert TrimSpace("") == "";
      return Some(redirectPath);
    }

    /** `os.RemoveAll`: what it reports as removed is gone; when it fails, part may be. */
    method RemoveAll(p: Path) returns (ok: bool)
      modifies this
      ensures forall q :: q in tree ==> q in old(tree) && tree[q] == old(tree)[q]
      ensures forall q | q in old(tree) && !Under(p, q) :: q in tree
      ensures ok ==> p !in tree
      ensures writable ==> ok
    {
      var works: bool := *;
      ok := works || writable;
      var left: set<Path> := *;
      tree := map q | q in tree && (!Under(p, q) || (!ok && q in left)) :: tree[q];
    }

    /** `os.MkdirAll`: makes the missing directories down to `p`. */
    method MkdirAll(p: Path) returns (ok: bool)
      modifies this
      ensures forall q :: q in old(tree) ==> q in tree && tree[q] == old(tree)[q]
      ensures forall q | q in tree && q !in old(tree) :: tree[q].Folder? && Under(q, p)
      ensures ok ==> p in tree && tree[p].Folder?
      ensures writable && (forall n | 0 <= n <= |p| :: !IsFile(old(tree), p[..n])) ==> ok
    {
      var works: bool := *;
      ok := works || writable;
      for n := 0 to |p| + 1
        invariant forall q :: q in old(tree) ==> q in tree && tree[q] == old(tree)[q]
        invariant forall q | q in tree && q !in old(tree) :: tree[q].Folder? && Under(q, p)
        invariant ok && n > 0 ==> p[..n - 1] in tree && tree[p[..n - 1]].Folder?
        invariant writable ==> ok
      {
        var dir := p[..n];
        if IsFile(tree, dir) {
          return false;
        }
        if dir !in tree {
          if !writable && !works {
            return false;
          }
          tree := tree[dir := Folder];
        }
      }
      assert p[..|p|] == p;
    }

    /** `os.WriteFile`; a failure may leave anything in the file. */
    method WriteFile(p: Path, content: string) returns (ok: bool)
      modifies this
      ensures forall q | q != p :: (q in tree <==> q in old(tree)) && (q in tree ==> tree[q] == old(tree)[q])
      ensures ok ==> ReadFile(tree, p) == Some(content)
      ensures writable && IsFolder(old(tree), Dir(p)) && !IsFolder(old(tree), p) ==> ok
    {
      if p == [] || Dir(p) !in tree || IsFile(tree, Dir(p)) || (p in tree && tree[p].Folder?) {
        return false;
      }
      var works: bool := *;
      ok := works || writable;
      var other: string := *;
      tree := tree[p := File(if ok then content else other)];
    }

    /** `cleanBeadsRuntimeFiles`: whatever happens, only runtime files go; and all of them when it
        reports no error and directories can be listed. `filepath.Glob` passes over one that
        cannot be, without an error. */
    method CleanBeadsRuntimeFiles(beadsDir: Path) returns (ok: bool)
      modifies this
      ensures forall q :: q in tree ==> q in old(tree) && tree[q] == old(tree)[q]
      ensures forall q | q in old(tree) && !RuntimePath(RUNTIME_PATTERNS, beadsDir, q) :: q in tree
      ensures ok && readable && !Missing(old(tree), beadsDir) ==>
                forall e | e in tree :: !RuntimeEntry(RUNTIME_PATTERNS, beadsDir, e)
      ensures writable ==> ok
    {
      if Missing(tree, beadsDir) {
        return true;
      }
      hide *;
      ok := true;
      forall e { NoPatterns(beadsDir, e); }
      for i := 0 to |RUNTIME_PATTERNS|
        invariant forall q :: q in tree ==> q in old(tree) && tree[q] == old(tree)[q]
        invariant forall q | q in old(tree) && !RuntimePath(RUNTIME_PATTERNS, beadsDir, q) :: q in tree
        invariant ok && readable ==> forall e | e in tree :: !RuntimeEntry(RUNTIME_PATTERNS[..i], beadsDir, e)
        invariant writable ==> ok
      {
        var removed := RemoveMatches(beadsDir, i);
        ok := ok && removed;
        forall e { OneMorePattern(RUNTIME_PATTERNS, i, beadsDir, e); }
      }
      assert RUNTIME_PATTERNS[..|RUNTIME_PATTERNS|] == RUNTIME_PATTERNS;
    }

    /** Remove every entry that the i-th pattern is found to match. */
    method RemoveMatches(beadsDir: Path, i: nat) returns (ok: bool)
      requires i < |RUNTIME_PATTERNS|
      modifies this
      ensures forall q :: q in tree ==> q in old(tree) && tree[q] == old(tree)[q]
      ensures forall q | q in old(tree) && !RuntimePath(RUNTIME_PATTERNS, beadsDir, q) :: q in tree
      ensures ok && readable ==> forall e | e in tree :: !RuntimeEntry([RUNTIME_PATTERNS[i]], beadsDir, e)
      ensures writable ==> ok
    {
      var pattern := RUNTIME_PATTERNS[i];
      var matches := set e | e in tree && RuntimeEntry([pattern], beadsDir, e);
      ok := true;
      var listed: bool := *;
      if !listed && !readable {
        return;
      }
      while matches != {}
        invariant forall q :: q in tree ==> q in old(tree) && tree[q] == old(tree)[q]
        invariant forall q | q in old(tree) && !RuntimePath(RUNTIME_PATTERNS, beadsDir, q) :: q in tree
        invariant forall e | e in matches :: RuntimeEntry([pattern], beadsDir, e)
        invariant ok ==> forall e | e in tree && RuntimeEntry([pattern], beadsDir, e) :: e in matches
        invariant writable ==> ok
        decreases |matches|
      {
        var e :| e in matches;
        OneOfAll(i, beadsDir, e);
        var removed := RemoveAll(e);
        ok := ok && removed;
        matches := matches - {e};
      }
    }

    /** `SetupRedirect`. */
    method SetupRedirect(townRoot: Path, worktree: Path) returns (ok: bool)
      modifies this
      ensures Target(old(tree), townRoot, worktree).None? ==> !ok && tree == old(tree)
      ensures ok ==> WroteRedirect(old(tree), tree, worktree, Target(old(tree), townRoot, worktree).value)
      ensures ok && readable && IsFolder(old(tree), worktree + [BEADS]) ==>
                forall e | e in tree && RuntimeEntry(RUNTIME_PATTERNS, worktree + [BEADS], e) :: e == RedirectFile(worktree + [BEADS])
      ensures writable && Target(old(tree), townRoot, worktree).Some? && Reaches(old(tree), worktree) ==> ok
      ensures forall p | !Under(worktree + [BEADS], p) :: ReadFile(tree, p) == ReadFile(old(tree), p)
      ensures forall p | Tracked(worktree + [BEADS], p) :: ReadFile(tree, p) == ReadFile(old(tree), p)
    {
      hide Target, TrimSpace, Missing, Tracked, RuntimePath, RuntimeEntry, Reaches, WroteRedirect;
      var redirectPath := ComputeRedirectTarget(townRoot, worktree);
      if redirectPath.None? {
        return false;
      }
      var worktreeBeadsDir := worktree + [BEADS];
      if IsFile(tree, worktreeBeadsDir) {
        var removable: bool := *;
        if !removable && !writable {
          return false;
        }
        tree := tree - {worktreeBeadsDir};
      }
      if worktreeBeadsDir in tree {
        ThereIsNotMissing(tree, worktreeBeadsDir);
      }
      var cleaned := CleanBeadsRuntimeFiles(worktreeBeadsDir);
      forall p | !Under(worktreeBeadsDir, p) || Tracked(worktreeBeadsDir, p)
        ensures ReadFile(tree, p) == ReadFile(old(tree), p)
      {
        NotRuntime(worktreeBeadsDir, p);
      }
      if !cleaned {
        return false;
      }
      ghost var clean := tree;
      if Reaches(old(tree), worktree) {
        StaysClear(old(tree), clean, worktree);
      }
      var made := MkdirAll(worktreeBeadsDir);
      ghost var ready := tree;
      if !made {
        return false;
      }
      var redirectFile := RedirectFile(worktreeBeadsDir);
      NotTracked(worktreeBeadsDir);
      if Reaches(old(tree), worktree) {
        RedirectIsNoFolder(old(tree), clean, ready, worktree);
      }
      ok := WriteFile(redirectFile, redirectPath.value + "\n");
      if readable && IsFolder(old(tree), worktreeBeadsDir) {
        OnlyRedirectLeft(clean, ready, tree, worktreeBeadsDir);
      }
      if ok {
        WritesRedirect(old(tree), tree, worktree, redirectPath.value);
      }
    }
  }

  /** No file is in the way to the worktree, and no directory has the redirect's name. */
  predicate Reaches(t: Tree, worktree: Path) {
    (forall n | 0 <= n <= |worktree| :: !IsFile(t, worktree[..n])) && !IsFolder(t, RedirectFile(worktree + [BEADS]))
  }

  lemma StaysClear(before: Tree, clean: Tree, worktree: Path)
    requires Reaches(before, worktree) && !IsFile(clean, worktree + [BEADS])
    requires forall q :: q in clean ==> q in before && clean[q] == before[q]
    ensures forall n | 0 <= n <= |worktree| + 1 :: !IsFile(clean, (worktree + [BEADS])[..n])
  {
    var dir := worktree + [BEADS];
    forall n | 0 <= n <= |worktree| + 1 ensures !IsFile(clean, dir[..n]) {
      assert if n <= |worktree| then dir[..n] == worktree[..n] else dir[..n] == dir;
    }
  }

  lemma RedirectIsNoFolder(before: Tree, clean: Tree, ready: Tree, worktree: Path)
    requires Reaches(before, worktree)
    requires forall q :: q in clean ==> q in before && clean[q] == before[q]
    requires forall q | q in ready && q !in clean :: Under(q, worktree + [BEADS])
    requires forall q :: q in clean ==> q in ready && ready[q] == clean[q]
    ensures !IsFolder(ready, RedirectFile(worktree + [BEADS]))
    ensures Dir(RedirectFile(worktree + [BEADS])) == worktree + [BEADS]
  {}

  lemma OnlyRedirectLeft(clean: Tree, ready: Tree, after: Tree, dir: Path)
    requires forall e | e in clean :: !RuntimeEntry(RUNTIME_PATTERNS, dir, e)
    requires forall q | q in ready && q !in clean :: Under(q, dir)
    requires forall q | q != RedirectFile(dir) :: q in after <==> q in ready
    ensures forall e | e in after && RuntimeEntry(RUNTIME_PATTERNS, dir, e) :: e == RedirectFile(dir)
  {
    hide MatchesSome;
  }

  lemma ThereIsNotMissing(t: Tree, p: Path)
    requires p in t
    ensures !Missing(t, p)
  {}

  lemma WritesRedirect(before: Tree, after: Tree, worktree: Path, text: string)
    requires ReadFile(after, RedirectFile(worktree + [BEADS])) == Some(text + "\n")
    requires forall p | !Under(worktree + [BEADS], p) :: ReadFile(after, p) == ReadFile(before, p)
    ensures WroteRedirect(before, after, worktree, text)
  {}

  lemma NoPatterns(dir: Path, e: Path)
    ensures !RuntimeEntry(RUNTIME_PATTERNS[..0], dir, e)
  {}

  lemma OneMorePattern(patterns: seq<string>, i: nat, dir: Path, e: Path)
    requires i < |patterns|
    ensures RuntimeEntry(patterns[..i + 1], dir, e) <==>
            RuntimeEntry(patterns[..i], dir, e) || RuntimeEntry([patterns[i]], dir, e)
  {
    hide Matches;
    assert patterns[..i + 1] == patterns[..i] + [patterns[i]];
  }

  lemma OneOfAll(i: nat, dir: Path, e: Path)
    requires i < |RUNTIME_PATTERNS| && RuntimeEntry([RUNTIME_PATTERNS[i]], dir, e)
    ensures RuntimeEntry(RUNTIME_PATTERNS, dir, e)
    ensures forall q | Under(e, q) :: RuntimePath(RUNTIME_PATTERNS, dir, q)
  {
    assert RUNTIME_PATTERNS[i] in RUNTIME_PATTERNS && Matches(RUNTIME_PATTERNS[i], e[|dir|]);
    forall q | Under(e, q) ensures RuntimePath(RUNTIME_PATTERNS, dir, q) {
      assert q[..|dir| + 1] == e;
    }
  }

  // ----- tracked files -----

  /** The tracked files of a beads directory and what is below them. */
  predicate Tracked(dir: Path, p: Path) {
    |p| > |dir| && Under(dir, p) && p[|dir|] in ["formulas", "README.md", "config.yaml", ".gitignore"]
  }

  lemma GoneRedirect(t: Tree, beadsDir: Path)
    requires RedirectFile(beadsDir) !in t
    ensures Next(t, beadsDir) == None
  {}

  lemma NotRuntime(dir: Path, p: Path)
    requires !Under(dir, p) || Tracked(dir, p)
    ensures !RuntimePath(RUNTIME_PATTERNS, dir, p) && p != dir
  {
    hide Matches;
    if RuntimePath(RUNTIME_PATTERNS, dir, p) {
      assert p[..|dir|] == p[..|dir| + 1][..|dir|];
      if Under(dir, p) {
        TrackedIsNotRuntime(p[|dir|]);
      }
    }
  }

  lemma NotTracked(dir: Path)
    ensures !Tracked(dir, RedirectFile(dir)) && Under(dir, RedirectFile(dir))
  {
    assert RedirectFile(dir)[|dir|] == "redirect";
    assert |"redirect"| == 8 && "redirect"[0] != "formulas"[0];
    assert |"README.md"| == 9 && |"config.yaml"| == 11 && |".gitignore"| == 10;
  }
}
