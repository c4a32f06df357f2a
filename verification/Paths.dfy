/** Absolute paths as sequences of components, cleaned lexically as Go's `path/filepath` does,
    and a tree of files. */
module Paths {
  import opened Text

  type Path = seq<string>

  predicate Name(c: string) {
    c != "" && c != "." && c != ".." && Free(c, '/')
  }

  /** An absolute, lexically clean path. */
  predicate CleanPath(p: Path) {
    forall c | c in p :: Name(c)
  }

  /** One component further: nothing, up (the root is its own parent), or down. */
  function Go(p: Path, c: string): Path {
    if c == "" || c == "." then p
    else if c == ".." then Dir(p)
    else p + [c]
  }

  function Dir(p: Path): Path {
    if p == [] then [] else p[..|p| - 1]
  }

  /** `filepath.Clean(filepath.Join(p, target))` for a target split at its slashes. */
  function Walk(p: Path, target: seq<string>): Path
    decreases |target|
  {
    if target == [] then p else Walk(Go(p, target[0]), target[1..])
  }

  function JoinPath(p: Path, target: string): Path {
    Walk(p, Split(target, '/'))
  }

  /** The length of the longest common prefix. */
  function Common(a: Path, b: Path): (n: nat)
    ensures n <= |a| && n <= |b| && a[..n] == b[..n]
    ensures n < |a| && n < |b| ==> a[n] != b[n]
  {
    if a == [] || b == [] || a[0] != b[0] then 0
    else
      var n := Common(a[1..], b[1..]);
      assert a[..n + 1] == [a[0]] + a[1..][..n] && b[..n + 1] == [b[0]] + b[1..][..n];
      n + 1
  }

  function Ups(n: nat): seq<string> {
    if n == 0 then [] else [".."] + Ups(n - 1)
  }

  /** The components of `filepath.Rel(from, to)`. */
  function Rel(from: Path, to: Path): seq<string> {
    var n := Common(from, to);
    if n == |from| && n == |to| then ["."] else Ups(|from| - n) + to[n..]
  }

  lemma {:induction false} WalkAppend(p: Path, a: seq<string>, b: seq<string>)
    ensures Walk(p, a + b) == Walk(Walk(p, a), b)
    decreases |a|
  {
    if a == [] {
      assert a + b == b;
    } else {
      assert (a + b)[1..] == a[1..] + b;
      WalkAppend(Go(p, a[0]), a[1..], b);
    }
  }

  lemma {:induction false} WalkUp(p: Path, n: nat)
    ensures Walk(p, Ups(n)) == p[..if n <= |p| then |p| - n else 0]
  {
    if n > 0 {
      WalkUp(Dir(p), n - 1);
      assert Ups(n)[1..] == Ups(n - 1);
    }
  }

  lemma {:induction false} UpsLength(n: nat)
    ensures |Ups(n)| == n && forall i | 0 <= i < n :: Ups(n)[i] == ".."
  {
    if n > 0 {
      UpsLength(n - 1);
    }
  }

  // ----- files -----

  datatype Node = Folder | File(content: string)

  type Tree = map<Path, Node>

  predicate IsFile(t: Tree, p: Path) {
    p in t && t[p].File?
  }

  predicate IsFolder(t: Tree, p: Path) {
    p in t && t[p].Folder?
  }

  function ReadFile(t: Tree, p: Path): Option<string> {
    if IsFile(t, p) then Some(t[p].content) else None
  }

  /** `os.IsNotExist` of a stat: nothing there, and no file where a directory is needed
      (which is another error). */
  predicate Missing(t: Tree, p: Path) {
    p !in t && forall n | 0 <= n < |p| :: !IsFile(t, p[..n])
  }

  predicate Under(dir: Path, p: Path) {
    dir <= p
  }
}
