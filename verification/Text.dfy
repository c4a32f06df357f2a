/** The string operations of Go's `strings` package that the modelled code uses,
    with the few laws the codecs rest on. */
module Text {

  datatype Option<+T> = None | Some(value: T) {
    function GetOr(default: T): T {
      if Some? then value else default
    }
  }

  // ----- splitting and joining -----

  /** `strings.Split(s, sep)` for a one-character separator: never empty. */
  function Split(s: string, sep: char): (parts: seq<string>)
    ensures |parts| >= 1
  {
    if s == "" then [""]
    else if s[0] == sep then [""] + Split(s[1..], sep)
    else
      var rest := Split(s[1..], sep);
      [[s[0]] + rest[0]] + rest[1..]
  }

  /** `strings.Join(parts, sep)` for a one-character separator. */
  function Join(parts: seq<string>, sep: char): string {
    if |parts| == 0 then ""
    else if |parts| == 1 then parts[0]
    else parts[0] + [sep] + Join(parts[1..], sep)
  }

  predicate Free(s: string, c: char) {
    c !in s
  }

  predicate AllFree(parts: seq<string>, c: char) {
    forall p | p in parts :: Free(p, c)
  }

  lemma {:induction false} JoinSplit(s: string, sep: char)
    ensures Join(Split(s, sep), sep) == s
  {
    if s != "" {
      JoinSplit(s[1..], sep);
      var rest := Split(s[1..], sep);
      if s[0] == sep {
        assert ([""] + rest)[1..] == rest;
        assert s == [sep] + s[1..];
      } else {
        var parts := [[s[0]] + rest[0]] + rest[1..];
        assert parts[1..] == rest[1..];
        assert s == [s[0]] + s[1..];
      }
    }
  }

  lemma {:induction false} SplitPartsFree(s: string, sep: char)
    ensures AllFree(Split(s, sep), sep)
  {
    if s != "" {
      SplitPartsFree(s[1..], sep);
      var rest := Split(s[1..], sep);
      assert Free(rest[0], sep) && AllFree(rest[1..], sep);
    }
  }

  lemma {:induction false} SplitFree(s: string, sep: char)
    requires Free(s, sep)
    ensures Split(s, sep) == [s]
  {
    if s != "" {
      SplitFree(s[1..], sep);
      assert s == [s[0]] + s[1..];
    }
  }

  lemma {:induction false} SplitAtSep(s: string, sep: char)
    ensures Split([sep] + s, sep) == [""] + Split(s, sep)
  {
    assert ([sep] + s)[1..] == s;
  }

  lemma {:induction false} SplitOneMore(c: char, s: string, sep: char)
    requires c != sep
    ensures Split([c] + s, sep) == [[c] + Split(s, sep)[0]] + Split(s, sep)[1..]
  {
    assert ([c] + s)[1..] == s;
  }

  /** Splitting is a homomorphism over the separator. */
  lemma {:induction false} SplitAppend(a: string, b: string, sep: char)
    ensures Split(a + [sep] + b, sep) == Split(a, sep) + Split(b, sep)
  {
    hide Split;
    if a == "" {
      SplitAtSep(b, sep);
      SplitFree("", sep);
      assert a + [sep] + b == [sep] + b;
    } else {
      var rest := a[1..] + [sep] + b;
      assert a + [sep] + b == [a[0]] + rest && a == [a[0]] + a[1..];
      SplitAppend(a[1..], b, sep);
      if a[0] == sep {
        SplitAtSep(rest, sep);
        SplitAtSep(a[1..], sep);
      } else {
        SplitOneMore(a[0], rest, sep);
        SplitOneMore(a[0], a[1..], sep);
      }
    }
  }

  function SplitAll(parts: seq<string>, sep: char): seq<string> {
    if parts == [] then [] else Split(parts[0], sep) + SplitAll(parts[1..], sep)
  }

  lemma {:induction false} SplitJoinAll(parts: seq<string>, sep: char)
    requires parts != []
    ensures Split(Join(parts, sep), sep) == SplitAll(parts, sep)
  {
    if |parts| == 1 {
      assert SplitAll(parts[1..], sep) == [];
    } else {
      SplitAppend(parts[0], Join(parts[1..], sep), sep);
      SplitJoinAll(parts[1..], sep);
    }
  }

  lemma {:induction false} SplitAllAppend(a: seq<string>, b: seq<string>, sep: char)
    ensures SplitAll(a + b, sep) == SplitAll(a, sep) + SplitAll(b, sep)
  {
    hide Split;
    if a == [] {
      assert a + b == b;
    } else {
      SplitAllAppend(a[1..], b, sep);
      assert (a + b)[1..] == a[1..] + b && (a + b)[0] == a[0];
    }
  }

  /** A prefix without separators goes to the first part. */
  lemma {:induction false} SplitPrefix(a: string, b: string, sep: char)
    requires Free(a, sep)
    ensures Split(a + b, sep) == [a + Split(b, sep)[0]] + Split(b, sep)[1..]
  {
    hide Split;
    if a == "" {
      assert a + b == b && a + Split(b, sep)[0] == Split(b, sep)[0];
    } else {
      SplitPrefix(a[1..], b, sep);
      SplitOneMore(a[0], a[1..] + b, sep);
      assert a + b == [a[0]] + (a[1..] + b);
      assert a + Split(b, sep)[0] == [a[0]] + (a[1..] + Split(b, sep)[0]);
    }
  }

  lemma {:induction false} SplitAllFree(parts: seq<string>, sep: char)
    requires AllFree(parts, sep)
    ensures SplitAll(parts, sep) == parts
  {
    if parts != [] {
      SplitFree(parts[0], sep);
      SplitAllFree(parts[1..], sep);
    }
  }

  lemma SplitJoin(parts: seq<string>, sep: char)
    requires parts != [] && AllFree(parts, sep)
    ensures Split(Join(parts, sep), sep) == parts
  {
    SplitJoinAll(parts, sep);
    SplitAllFree(parts, sep);
  }

  // ----- white space -----

  /** Unicode White_Space, the class `strings.TrimSpace` removes. */
  predicate IsSpace(c: char) {
    '\t' <= c <= '\r' || c == ' ' || c == '\U{0085}' || c == '\U{00A0}' || c == '\U{1680}' ||
    '\U{2000}' <= c <= '\U{200A}' || c == '\U{2028}' || c == '\U{2029}' || c == '\U{202F}' ||
    c == '\U{205F}' || c == '\U{3000}'
  }

  /** Go's `unicode.IsSpace`: the white space of Latin-1 and the other space separators. */
  lemma SpaceIff(c: char)
    ensures IsSpace(c) <==>
            c in {'\t', '\n', '\U{000B}', '\U{000C}', '\r', ' ', '\U{0085}', '\U{00A0}', '\U{1680}',
                  '\U{2000}', '\U{2001}', '\U{2002}', '\U{2003}', '\U{2004}', '\U{2005}', '\U{2006}', '\U{2007}',
                  '\U{2008}', '\U{2009}', '\U{200A}', '\U{2028}', '\U{2029}', '\U{202F}', '\U{205F}', '\U{3000}'}
  {
    if '\t' <= c <= '\r' {
      assert c as int in {9, 10, 11, 12, 13};
    } else if '\U{2000}' <= c <= '\U{200A}' {
      assert 0x2000 <= c as int <= 0x200A;
    }
  }

  function TrimLeft(s: string): string {
    if s != "" && IsSpace(s[0]) then TrimLeft(s[1..]) else s
  }

  function TrimRight(s: string): string {
    if s != "" && IsSpace(s[|s| - 1]) then TrimRight(s[..|s| - 1]) else s
  }

  /** `strings.TrimSpace`. */
  function TrimSpace(s: string): string {
    TrimRight(TrimLeft(s))
  }

  predicate Trimmed(s: string) {
    s == "" || (!IsSpace(s[0]) && !IsSpace(s[|s| - 1]))
  }

  predicate Blank(s: string) {
    TrimSpace(s) == ""
  }

  lemma {:induction false} TrimLeftSuffix(s: string)
    ensures |TrimLeft(s)| <= |s| && TrimLeft(s) == s[|s| - |TrimLeft(s)|..]
    ensures TrimLeft(s) == "" || !IsSpace(TrimLeft(s)[0])
  {
    if s != "" && IsSpace(s[0]) {
      TrimLeftSuffix(s[1..]);
    }
  }

  lemma {:induction false} TrimRightPrefix(s: string)
    ensures |TrimRight(s)| <= |s| && TrimRight(s) == s[..|TrimRight(s)|]
    ensures TrimRight(s) == "" || !IsSpace(TrimRight(s)[|TrimRight(s)| - 1])
  {
    if s != "" && IsSpace(s[|s| - 1]) {
      TrimRightPrefix(s[..|s| - 1]);
    }
  }

  /** What TrimSpace returns is trimmed, and it only removes characters. */
  lemma TrimSpaceTrims(s: string)
    ensures Trimmed(TrimSpace(s))
    ensures forall c | c in TrimSpace(s) :: c in s
    ensures Trimmed(s) ==> TrimSpace(s) == s
  {
    TrimLeftSuffix(s);
    TrimRightPrefix(TrimLeft(s));
  }

  predicate AllSpace(s: string) {
    forall c | c in s :: IsSpace(c)
  }

  lemma {:induction false} TrimLeftSplits(s: string)
    ensures |TrimLeft(s)| <= |s| && AllSpace(s[..|s| - |TrimLeft(s)|])
  {
    TrimLeftSuffix(s);
    if s != "" && IsSpace(s[0]) {
      TrimLeftSplits(s[1..]);
      TrimLeftSuffix(s[1..]);
      var n := |s| - |TrimLeft(s)|;
      assert s[..n] == [s[0]] + s[1..][..n - 1];
    }
  }

  lemma {:induction false} TrimRightSplits(s: string)
    ensures |TrimRight(s)| <= |s| && AllSpace(s[|TrimRight(s)|..])
  {
    TrimRightPrefix(s);
    if s != "" && IsSpace(s[|s| - 1]) {
      var n := |s| - 1;
      TrimRightSplits(s[..n]);
      TrimRightPrefix(s[..n]);
      assert s[|TrimRight(s)|..] == s[..n][|TrimRight(s)|..] + [s[n]];
    }
  }

  /** Only white space is taken away, at both ends. */
  lemma TrimSpaceSplits(s: string) returns (head: string, tail: string)
    ensures s == head + TrimSpace(s) + tail && AllSpace(head) && AllSpace(tail)
  {
    var t := TrimLeft(s);
    TrimLeftSuffix(s);
    TrimRightPrefix(t);
    TrimLeftSplits(s);
    TrimRightSplits(t);
    head, tail := s[..|s| - |t|], t[|TrimRight(t)|..];
  }

  lemma {:induction false} TrimLeftSkips(b: string, s: string)
    requires AllSpace(b)
    ensures TrimLeft(b + s) == TrimLeft(s)
  {
    if b == "" {
      assert b + s == s;
    } else {
      assert (b + s)[1..] == b[1..] + s;
      TrimLeftSkips(b[1..], s);
    }
  }

  lemma BlankIsSpace(s: string)
    ensures Blank(s) <==> AllSpace(s)
  {
    var head, tail := TrimSpaceSplits(s);
    if AllSpace(s) {
      TrimLeftSkips(s, "");
      assert s + "" == s;
    }
    hide TrimSpace;
  }

  lemma TrimLeadingSpace(s: string)
    ensures TrimSpace(" " + s) == TrimSpace(s)
  {
    assert (" " + s)[1..] == s;
  }

  lemma {:induction false} TrimRightAppend(a: string, b: string)
    ensures TrimRight(a + b) == if TrimRight(b) == "" then TrimRight(a) else a + TrimRight(b)
  {
    if b == "" {
      assert a + b == a;
    } else {
      var n := |a + b| - 1;
      assert (a + b)[n] == b[|b| - 1];
      if IsSpace(b[|b| - 1]) {
        assert (a + b)[..n] == a + b[..|b| - 1];
        TrimRightAppend(a, b[..|b| - 1]);
      }
    }
  }

  lemma {:induction false} TrimCommute(s: string)
    ensures TrimLeft(TrimRight(s)) == TrimSpace(s)
  {
    if s != "" && IsSpace(s[0]) {
      TrimCommute(s[1..]);
      assert s == [s[0]] + s[1..];
      TrimRightAppend([s[0]], s[1..]);
      if TrimRight(s[1..]) == "" {
        assert TrimRight([s[0]][..0]) == "";
      } else {
        assert ([s[0]] + TrimRight(s[1..]))[1..] == TrimRight(s[1..]);
      }
    } else {
      TrimRightPrefix(s);
      if s != "" && TrimRight(s) != "" { assert TrimRight(s)[0] == s[0]; }
    }
  }

  /** White space at the ends is all that is taken away. */
  lemma SpacedTrims(a: string, s: string, b: string)
    requires AllSpace(a) && Trimmed(s) && AllSpace(b)
    ensures TrimSpace(a + (s + b)) == s
  {
    TrimLeftSkips(a, s + b);
    BlankIsSpace(b);
    if s == "" {
      assert s + b == b;
    } else {
      assert (s + b)[0] == s[0];
      TrimRightAppend(s, b);
      TrimLeftSkips(b, "");
      assert b + "" == b;
      TrimCommute(b);
      TrimRightPrefix(b);
    }
  }

  lemma TrimRightFirst(s: string)
    ensures TrimSpace(TrimRight(s)) == TrimSpace(s)
  {
    TrimCommute(s);
    TrimSpaceTrims(s);
    var t := TrimSpace(s);
    TrimSpaceTrims(t);
    assert TrimLeft(t) == t && TrimRight(t) == t;
  }

  lemma TogetherIs(a: string, b: string, c: string)
    ensures a + (b + c) == a + b + c
  {}

  // ----- case and search -----

  /** `unicode.ToLower` as far as an ASCII result is concerned: besides A-Z only
      U+0130 and U+212A lower to ASCII letters. */
  function LowerChar(c: char): char {
    if 'A' <= c <= 'Z' then (c as int + 32) as char
    else if c == '\U{0130}' then 'i'
    else if c == '\U{212A}' then 'k'
    else c
  }

  function ToLower(s: string): (r: string)
    ensures |r| == |s|
    ensures forall i | 0 <= i < |s| :: r[i] == LowerChar(s[i])
  {
    seq(|s|, i requires 0 <= i < |s| => LowerChar(s[i]))
  }

  predicate IsLower(s: string) {
    forall c | c in s :: LowerChar(c) == c
  }

  lemma ToLowerId(s: string)
    requires IsLower(s)
    ensures ToLower(s) == s
  {
    forall i | 0 <= i < |s| ensures ToLower(s)[i] == s[i] {
      assert s[i] in s;
    }
  }

  /** What lower-casing changes. */
  lemma LowerCharIs(c: char)
    ensures LowerChar(c) != c <==> 'A' <= c <= 'Z' || c == '\U{0130}' || c == '\U{212A}'
    ensures 'A' <= c <= 'Z' ==> LowerChar(c) as int - 'a' as int == c as int - 'A' as int
    ensures LowerChar('\U{0130}') == 'i' && LowerChar('\U{212A}') == 'k'
  {}

  /** The word with any of its letters in upper case. */
  predicate InCase(word: string, lower: string) {
    |word| == |lower| && forall i | 0 <= i < |lower| ::
      word[i] == lower[i] || ('a' <= lower[i] <= 'z' && word[i] as int == lower[i] as int - 32)
  }

  lemma InCaseLowers(word: string, lower: string)
    requires InCase(word, lower) && IsLower(lower)
    ensures ToLower(word) == lower
  {
    assert forall i | 0 <= i < |lower| :: lower[i] in lower;
    assert forall i | 0 <= i < |lower| :: ToLower(word)[i] == lower[i];
  }

  /** `strings.Index(s, c)`. */
  function IndexOf(s: string, c: char): (i: int)
    ensures -1 <= i < |s|
    ensures i == -1 <==> c !in s
    ensures i >= 0 ==> s[i] == c && c !in s[..i]
  {
    if s == "" then -1
    else if s[0] == c then 0
    else
      var j := IndexOf(s[1..], c);
      if j == -1 then -1
      else
        assert s[..j + 1] == [s[0]] + s[1..][..j];
        j + 1
  }

  lemma IndexOfAppend(a: string, c: char, b: string)
    requires c !in a
    ensures IndexOf(a + [c] + b, c) == |a|
  {
    var s := a + [c] + b;
    assert s[|a|] == c && s[..|a|] == a;
  }
}
