/** What a step says, line by line, told without the parser's own functions for it. */
module StepMeaning {
  import opened Text
  import opened Numbers
  import opened Lines
  import opened StepParser

  // ----- titles -----

  /** The k-th line is the first one that is prose and not blank. */
  predicate FirstText(body: seq<string>, k: nat)
    requires k < |body|
  {
    && Classify(body[k]).Prose? && !Blank(body[k])
    && forall i | 0 <= i < k :: !Classify(body[i]).Prose? || Blank(body[i])
  }

  predicate HasText(body: seq<string>) {
    exists l | l in body :: Classify(l).Prose? && !Blank(l)
  }

  /** The title is the first line of text, trimmed; without one it is the ref. */
  ghost predicate TitledBy(title: string, ref: string, body: seq<string>) {
    && (forall k | 0 <= k < |body| && FirstText(body, k) :: title == TrimSpace(body[k]))
    && (!HasText(body) ==> title == ref)
  }

  lemma StartTrims(l: string, rest: string, head: string, s: string, tail: string)
    requires l == head + s + tail && AllSpace(head) && s != "" && !IsSpace(s[0])
    ensures TrimSpace(l + rest) == TrimRight(s + tail + rest)
  {
    var t := s + tail + rest;
    assert t[0] == s[0];
    assert TrimLeft(t) == t;
    TrimLeftSkips(head, t);
    hide TrimLeft, TrimRight;
    assert l + rest == head + t;
  }

  lemma FirstLineTrims(t: string, rest: string)
    requires Free(t, '\n') && (rest == "" || rest[0] == '\n')
    ensures TrimSpace(Split(TrimRight(t + rest), '\n')[0]) == TrimSpace(t)
  {
    hide *;
    var r := TrimRight(rest);
    TrimRightAppend(t, rest);
    TrimRightFirst(t);
    RestStarts(t, rest);
    if r == "" {
      SplitFree(TrimRight(t), '\n');
    } else {
      SplitAppend(t, r[1..], '\n');
      SplitFree(t, '\n');
      assert r == ['\n'] + r[1..];
      TogetherIs(t, ['\n'], r[1..]);
    }
  }

  lemma RestStarts(t: string, rest: string)
    requires Free(t, '\n') && (rest == "" || rest[0] == '\n')
    ensures Free(TrimRight(t), '\n')
    ensures TrimRight(rest) == "" || TrimRight(rest)[0] == '\n'
  {
    TrimRightPrefix(t);
    TrimRightPrefix(rest);
    hide TrimRight;
  }

  /** The first line of a trimmed text. */
  lemma TitleText(l: string, rest: string)
    requires Free(l, '\n') && !Blank(l) && (rest == "" || rest[0] == '\n')
    ensures TrimSpace(Split(TrimSpace(l + rest), '\n')[0]) == TrimSpace(l) && TrimSpace(l + rest) != ""
  {
    var head, tail := TrimSpaceSplits(l);
    var s := TrimSpace(l);
    TrimSpaceTrims(l);
    assert s != "" && Trimmed(s) && !IsSpace(s[0]);
    assert Free(s + tail, '\n');
    hide TrimSpace, TrimRight, Split, IsSpace;
    StartTrims(l, rest, head, s, tail);
    FirstLineTrims(s + tail, rest);
    SpacedTrims("", s, tail);
    assert "" + (s + tail) == s + tail;
    NotBlankRest(s, tail + rest);
    TogetherIs(s, tail, rest);
  }

  lemma NotBlankRest(s: string, rest: string)
    requires s != "" && Trimmed(s)
    ensures TrimRight(s + rest) != ""
  {
    TrimRightAppend(s, rest);
  }

  lemma LeadingBlank(b: string, s: string)
    requires Blank(b)
    ensures TrimSpace(b + s) == TrimSpace(s)
  {
    BlankIsSpace(b);
    TrimLeftSkips(b, s);
  }

  lemma NextJoined(l: string, rest: seq<string>)
    ensures Join([l] + rest, '\n') == l + (if rest == [] then "" else "\n" + Join(rest, '\n'))
  {
    assert ([l] + rest)[1..] == rest;
  }

  /** Blank lines before the text do not show. */
  lemma {:induction false} BlankLinesFirst(pre: seq<string>, rest: seq<string>)
    requires rest != [] && forall b | b in pre :: Blank(b)
    ensures TrimSpace(Join(pre + rest, '\n')) == TrimSpace(Join(rest, '\n'))
  {
    if pre == [] {
      assert pre + rest == rest;
    } else {
      hide TrimSpace, Join, Blank;
      var b, more := pre[0], pre[1..] + rest;
      assert pre + rest == [b] + more && b in pre;
      BlankLinesFirst(pre[1..], rest);
      NextJoined(b, more);
      BlankBreak(b);
      LeadingBlank(b + "\n", Join(more, '\n'));
      assert b + ("\n" + Join(more, '\n')) == b + "\n" + Join(more, '\n');
    }
  }

  lemma BlankBreak(b: string)
    requires Blank(b)
    ensures Blank(b + "\n")
  {
    BlankIsSpace(b);
    BlankIsSpace(b + "\n");
  }

  lemma {:induction false} AllBlank(lines: seq<string>)
    requires forall b | b in lines :: Blank(b)
    ensures TrimSpace(Join(lines, '\n')) == ""
  {
    if lines != [] {
      hide TrimSpace, Join, Blank;
      var n := |lines| - 1;
      assert lines == lines[..n] + [lines[n]] && lines[n] in lines;
      BlankLinesFirst(lines[..n], [lines[n]]);
      JoinOne(lines[n]);
    } else {
      JoinNone();
    }
  }

  lemma JoinOne(l: string)
    ensures Join([l], '\n') == l && (Blank(l) <==> TrimSpace(l) == "")
  {}

  lemma JoinNone()
    ensures TrimSpace(Join([], '\n')) == ""
  {}

  lemma ProseBefore(body: seq<string>, k: nat)
    requires k < |body| && FirstText(body, k)
    ensures Collect(body, ProseIn) == Collect(body[..k], ProseIn) + ([body[k]] + Collect(body[k + 1..], ProseIn))
    ensures forall b | b in Collect(body[..k], ProseIn) :: Blank(b)
  {
    hide *;
    CollectAround(body, k, ProseIn);
    TextLine(body, k);
    ProseIsThere(body[..k]);
  }

  lemma TextLine(body: seq<string>, k: nat)
    requires k < |body| && FirstText(body, k)
    ensures ProseIn(body[k]) == [body[k]]
    ensures forall b | b in body[..k] :: !Classify(b).Prose? || Blank(b)
  {
    hide Classify, Blank;
  }

  lemma {:induction false} ProseIsThere(body: seq<string>)
    ensures forall l :: l in Collect(body, ProseIn) <==> l in body && Classify(l).Prose?
  {
    hide Classify;
    if body != [] {
      var n := |body| - 1;
      ProseIsThere(body[..n]);
      assert body == body[..n] + [body[n]];
    }
  }

  /** The title of a step is its first line of text, or its ref. */
  lemma MakeStepTitled(ref: string, body: seq<string>)
    requires AllFree(body, '\n')
    ensures TitledBy(MakeStep(ref, body).title, ref, body)
    ensures MakeStep(ref, body).instructions == "" <==> !HasText(body)
  {
    var step, prose := MakeStep(ref, body), Collect(body, ProseIn);
    hide Classify, Blank, TrimSpace, Split;
    ProseIsThere(body);
    if HasText(body) {
      var k := FirstTextIn(body);
      TextTitles(ref, body, k);
    } else {
      AllBlank(prose);
      NoText(ref);
    }
    forall k | 0 <= k < |body| && FirstText(body, k) ensures step.title == TrimSpace(body[k]) {
      TextTitles(ref, body, k);
    }
  }

  lemma TextTitles(ref: string, body: seq<string>, k: nat)
    requires AllFree(body, '\n') && k < |body| && FirstText(body, k)
    ensures MakeStep(ref, body).title == TrimSpace(body[k]) && MakeStep(ref, body).instructions != ""
  {
    var l, post := body[k], Collect(body[k + 1..], ProseIn);
    assert l in body && TrimSpace(l) != "";
    ProseBefore(body, k);
    hide Classify, Blank, TrimSpace, Split, Join, Collect;
    BlankLinesFirst(Collect(body[..k], ProseIn), [l] + post);
    NextJoined(l, post);
    TitleText(l, if post == [] then "" else "\n" + Join(post, '\n'));
  }

  lemma FirstTextIn(body: seq<string>) returns (k: nat)
    requires HasText(body)
    ensures k < |body| && FirstText(body, k)
  {
    hide Classify, Blank;
    var l :| l in body && Classify(l).Prose? && !Blank(l);
    var j :| 0 <= j < |body| && body[j] == l;
    k := 0;
    while !(Classify(body[k]).Prose? && !Blank(body[k]))
      invariant k <= j && forall i | 0 <= i < k :: !Classify(body[i]).Prose? || Blank(body[i])
      decreases j - k
    {
      k := k + 1;
    }
  }

  lemma NoText(ref: string)
    ensures TrimSpace(Split("", '\n')[0]) == ""
  {}
}
