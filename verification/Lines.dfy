/** Reading a text line by line: what the line loops of the codecs and the step parser
    accumulate, and how a text splits at its header lines. */
module Lines {
  import opened Text

  /** Everything `pick` takes from the lines, in order. */
  function Collect<T>(lines: seq<string>, pick: string -> seq<T>): seq<T> {
    if lines == [] then [] else Collect(lines[..|lines| - 1], pick) + pick(lines[|lines| - 1])
  }

  /** What `read` finds in the last line in which it finds something. */
  function Latest<T>(lines: seq<string>, read: string -> Option<T>): Option<T> {
    if lines == [] then None
    else if read(lines[|lines| - 1]).Some? then read(lines[|lines| - 1])
    else Latest(lines[..|lines| - 1], read)
  }

  lemma {:induction false} CollectAppend<T>(a: seq<string>, b: seq<string>, pick: string -> seq<T>)
    ensures Collect(a + b, pick) == Collect(a, pick) + Collect(b, pick)
  {
    if b == [] {
      assert a + b == a;
    } else {
      assert (a + b)[..|a + b| - 1] == a + b[..|b| - 1];
      CollectAppend(a, b[..|b| - 1], pick);
    }
  }

  lemma {:induction false} LatestAppend<T>(a: seq<string>, b: seq<string>, read: string -> Option<T>)
    ensures Latest(a + b, read) == if Latest(b, read).Some? then Latest(b, read) else Latest(a, read)
  {
    if b == [] {
      assert a + b == a;
    } else {
      assert (a + b)[..|a + b| - 1] == a + b[..|b| - 1];
      LatestAppend(a, b[..|b| - 1], read);
    }
  }

  lemma CollectNext<T>(lines: seq<string>, i: nat, pick: string -> seq<T>)
    requires i < |lines|
    ensures Collect(lines[..i + 1], pick) == Collect(lines[..i], pick) + pick(lines[i])
  {
    assert lines[..i + 1][..i] == lines[..i];
  }

  lemma CollectAround<T>(lines: seq<string>, k: nat, pick: string -> seq<T>)
    requires k < |lines|
    ensures Collect(lines, pick) == Collect(lines[..k], pick) + (pick(lines[k]) + Collect(lines[k + 1..], pick))
  {
    var l, a, b := lines[k], lines[..k], lines[k + 1..];
    assert [l][..0] == [];
    assert Collect([l], pick) == pick(l);
    hide Collect;
    assert lines == a + ([l] + b);
    CollectAppend(a, [l] + b, pick);
    CollectAppend([l], b, pick);
  }

  lemma LatestNext<T>(lines: seq<string>, i: nat, read: string -> Option<T>)
    requires i < |lines|
    ensures Latest(lines[..i + 1], read) == if read(lines[i]).Some? then read(lines[i]) else Latest(lines[..i], read)
  {
    assert lines[..i + 1][..i] == lines[..i];
  }

  lemma {:induction false} LatestNowhere<T>(lines: seq<string>, read: string -> Option<T>)
    requires forall l | l in lines :: read(l).None?
    ensures Latest(lines, read).None?
  {
    if lines != [] {
      assert lines[|lines| - 1] in lines;
      LatestNowhere(lines[..|lines| - 1], read);
    }
  }

  lemma {:induction false} CollectNothing<T>(lines: seq<string>, pick: string -> seq<T>)
    requires forall l | l in lines :: pick(l) == []
    ensures Collect(lines, pick) == []
  {
    if lines != [] {
      assert lines[|lines| - 1] in lines;
      CollectNothing(lines[..|lines| - 1], pick);
    }
  }

  lemma {:induction false} LatestIsRead<T>(lines: seq<string>, read: string -> Option<T>)
    requires Latest(lines, read).Some?
    ensures exists l | l in lines :: read(l) == Latest(lines, read)
  {
    if read(lines[|lines| - 1]).None? {
      LatestIsRead(lines[..|lines| - 1], read);
    }
  }

  // ----- splitting a text at its header lines -----

  datatype Section = Section(header: string, body: seq<string>)

  predicate NoHeader(lines: seq<string>, isHeader: string -> bool) {
    forall l | l in lines :: !isHeader(l)
  }

  /** The lines before the first header. */
  function Preamble(lines: seq<string>, isHeader: string -> bool): (p: seq<string>)
    ensures |p| <= |lines|
  {
    if lines == [] || isHeader(lines[0]) then [] else [lines[0]] + Preamble(lines[1..], isHeader)
  }

  /** One section per header line: the header and everything up to the next one. */
  function Sections(lines: seq<string>, isHeader: string -> bool): seq<Section> {
    if lines == [] then []
    else if isHeader(lines[0]) then
      [Section(lines[0], Preamble(lines[1..], isHeader))] + Sections(lines[1..], isHeader)
    else Sections(lines[1..], isHeader)
  }

  function Flatten(sections: seq<Section>): seq<string> {
    if sections == [] then [] else [sections[0].header] + sections[0].body + Flatten(sections[1..])
  }

  predicate AreSections(sections: seq<Section>, isHeader: string -> bool) {
    forall s | s in sections :: isHeader(s.header) && NoHeader(s.body, isHeader)
  }

  lemma {:induction false} PreambleHasNoHeader(lines: seq<string>, isHeader: string -> bool)
    ensures NoHeader(Preamble(lines, isHeader), isHeader)
  {
    if lines != [] && !isHeader(lines[0]) {
      PreambleHasNoHeader(lines[1..], isHeader);
    }
  }

  /** The sections partition the text: put back together they are its lines in order,
      every section starts with a header, and no other line is one. */
  lemma {:induction false} SectionsPartition(lines: seq<string>, isHeader: string -> bool)
    ensures Preamble(lines, isHeader) + Flatten(Sections(lines, isHeader)) == lines
    ensures NoHeader(Preamble(lines, isHeader), isHeader)
    ensures AreSections(Sections(lines, isHeader), isHeader)
  {
    PreambleHasNoHeader(lines, isHeader);
    if lines != [] {
      SectionsPartition(lines[1..], isHeader);
      var head, rest := Section(lines[0], Preamble(lines[1..], isHeader)), Sections(lines[1..], isHeader);
      assert lines == [lines[0]] + (head.body + Flatten(rest));
      assert ([head] + rest)[1..] == rest;
    }
  }

  /** Only one grouping of lines has that shape, so the partition fixes the sections. */
  lemma {:induction false} SectionsUnique(preamble: seq<string>, sections: seq<Section>, isHeader: string -> bool)
    requires NoHeader(preamble, isHeader) && AreSections(sections, isHeader)
    ensures Preamble(preamble + Flatten(sections), isHeader) == preamble
    ensures Sections(preamble + Flatten(sections), isHeader) == sections
    decreases |sections|, |preamble|
  {
    var lines := preamble + Flatten(sections);
    if preamble != [] {
      assert preamble[0] in preamble && lines[1..] == preamble[1..] + Flatten(sections);
      SectionsUnique(preamble[1..], sections, isHeader);
    } else if sections != [] {
      var s := sections[0];
      assert s in sections && lines[0] == s.header && lines[1..] == s.body + Flatten(sections[1..]);
      SectionsUnique(s.body, sections[1..], isHeader);
    }
  }
}
