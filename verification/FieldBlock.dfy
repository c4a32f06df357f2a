/** Blocks of "key: value" lines inside free text. A schema names the fields and their
    keys; the laws here hold for every schema and are what the field codecs share. */
module FieldBlock {
  import opened Text
  import opened Lines

  /** The key (lower case) and value of a line, if it has a colon. */
  function Entry(line: string): Option<(string, string)> {
    var t := TrimSpace(line);
    var colon := IndexOf(t, ':');
    if colon == -1 then None
    else Some((ToLower(TrimSpace(t[..colon])), TrimSpace(t[colon + 1..])))
  }

  /** The fields in the order they are written, the key each is written with, and the
      field that a key read from a line stands for. */
  datatype Schema<!S(==)> = Schema(fields: seq<S>, keyOf: S -> string, fieldOf: string -> Option<S>)

  predicate PlainKey(key: string) {
    key != "" && Trimmed(key) && IsLower(key) && Free(key, ':') && Free(key, '\n')
  }

  ghost predicate Proper<S>(sch: Schema<S>) {
    && (forall i, j | 0 <= i < j < |sch.fields| :: sch.fields[i] != sch.fields[j])
    && (forall s | s in sch.fields :: PlainKey(sch.keyOf(s)) && sch.fieldOf(sch.keyOf(s)) == Some(s))
  }

  /** The field a line belongs to. */
  function FieldIn<S(==)>(sch: Schema<S>, line: string): Option<S> {
    match Entry(line)
    case None => None
    case Some((key, _)) => sch.fieldOf(key)
  }

  /** Reads one field from a line. */
  function Reader<S(==), T>(sch: Schema<S>, s: S, decode: string -> Option<T>): string -> Option<T> {
    line => if FieldIn(sch, line) == Some(s) then decode(Entry(line).value.1) else None
  }

  /** The last readable occurrence of a field. */
  function Find<S(==), T>(lines: seq<string>, sch: Schema<S>, s: S, decode: string -> Option<T>): Option<T> {
    Latest(lines, Reader(sch, s, decode))
  }

  /** What one more line adds to what has been found. */
  lemma FindNext<S, T>(lines: seq<string>, i: nat, sch: Schema<S>, s: S, decode: string -> Option<T>)
    requires i < |lines|
    ensures Find(lines[..i + 1], sch, s, decode) ==
            var e := Entry(lines[i]);
            if e.Some? && sch.fieldOf(e.value.0) == Some(s) && decode(e.value.1).Some? then decode(e.value.1)
            else Find(lines[..i], sch, s, decode)
  {
    var line := lines[i];
    LatestNext(lines, i, Reader(sch, s, decode));
    assert Entry(line).Some? ==> FieldIn(sch, line) == sch.fieldOf(Entry(line).value.0);
    hide Entry, FieldIn;
    assert Reader(sch, s, decode)(line) == if FieldIn(sch, line) == Some(s) then decode(Entry(line).value.1) else None;
  }

  // ----- writing -----

  function Row(key: string, value: string): seq<string> {
    if value == "" then [] else [key + ": " + value]
  }

  /** One line for each of the first `n` fields that has a value. */
  function Rows<S(==)>(sch: Schema<S>, value: S -> string, n: nat): seq<string>
    requires n <= |sch.fields|
  {
    if n == 0 then [] else Rows(sch, value, n - 1) + Row(sch.keyOf(sch.fields[n - 1]), value(sch.fields[n - 1]))
  }

  function Block<S(==)>(sch: Schema<S>, value: S -> string): seq<string> {
    Rows(sch, value, |sch.fields|)
  }

  /** No field value spans lines. */
  ghost predicate OneLine<S>(sch: Schema<S>, value: S -> string) {
    forall s | s in sch.fields :: Free(value(s), '\n')
  }

  lemma EntryOfRow(key: string, value: string)
    requires PlainKey(key)
    ensures Entry(key + ": " + value) == Some((key, TrimSpace(value)))
  {
    EntryOfWord(key, value);
    ToLowerId(key);
  }

  /** A key in any case. */
  lemma EntryOfWord(key: string, value: string)
    requires key != "" && Trimmed(key) && Free(key, ':')
    ensures Entry(key + ": " + value) == Some((ToLower(key), TrimSpace(value)))
  {
    var line := key + ": " + value;
    assert line == "" + (key + ([':'] + (" " + value)));
    TrimLeadingSpace(value);
    TrimSpaceTrims(key);
    hide Entry, TrimSpace, ToLower;
    EntryOfLine(line, "", key, " " + value);
  }

  /** And with white space around it. */
  lemma EntryOfLine(line: string, a: string, head: string, value: string)
    requires AllSpace(a) && head != "" && !IsSpace(head[0]) && Free(head, ':')
    requires line == a + (head + ([':'] + value))
    ensures Entry(line) == Some((ToLower(TrimSpace(head)), TrimSpace(value)))
  {
    var tail := TrimRight(value);
    LineTrims(a, head, value);
    TrimRightFirst(value);
    IndexOfAppend(head, ':', tail);
    var t := head + [':'] + tail;
    hide TrimSpace, TrimRight, ToLower, IndexOf;
    assert t[..|head|] == head && t[|head| + 1..] == tail;
    EntryOfTrimmed(line, t, |head|);
  }

  lemma EntryOfTrimmed(line: string, t: string, colon: nat)
    requires TrimSpace(line) == t && IndexOf(t, ':') == colon
    ensures Entry(line) == Some((ToLower(TrimSpace(t[..colon])), TrimSpace(t[colon + 1..])))
  {
    hide TrimSpace, ToLower;
  }

  lemma LineTrims(a: string, head: string, value: string)
    requires AllSpace(a) && head != "" && !IsSpace(head[0])
    ensures TrimSpace(a + (head + ([':'] + value))) == head + [':'] + TrimRight(value)
  {
    var rest := head + ([':'] + value);
    assert rest[0] == head[0];
    assert TrimLeft(rest) == rest && TrimSpace(a + rest) == TrimRight(TrimLeft(a + rest));
    ColonStays(value);
    TrimLeftSkips(a, rest);
    hide *;
    TrimRightAppend(head, [':'] + value);
    TogetherIs(head, [':'], TrimRight(value));
  }

  lemma ColonStays(value: string)
    ensures TrimRight([':'] + value) == [':'] + TrimRight(value)
  {
    TrimRightAppend([':'], value);
    assert TrimRight([':']) == [':'];
    hide TrimRight;
    assert [':'] + "" == [':'];
  }

  /** What a block says about a field: its value as it reads back. */
  function Written<S(==), T>(sch: Schema<S>, value: S -> string, s: S, decode: string -> Option<T>): Option<T> {
    if value(s) == "" then None else decode(TrimSpace(value(s)))
  }

  lemma ReadOne<T>(line: string, read: string -> Option<T>)
    ensures Latest([line], read) == read(line)
  {
    assert [line][..0] == [];
  }

  lemma RowRead<S, T>(sch: Schema<S>, value: S -> string, f: S, s: S, decode: string -> Option<T>)
    requires Proper(sch) && f in sch.fields
    ensures Find(Row(sch.keyOf(f), value(f)), sch, s, decode) == if f == s then Written(sch, value, s, decode) else None
  {
    var key := sch.keyOf(f);
    assert PlainKey(key) && sch.fieldOf(key) == Some(f);
    EntryOfRow(key, value(f));
    hide Entry, PlainKey, Proper;
    ReadOne(key + ": " + value(f), Reader(sch, s, decode));
  }

  lemma NewField<S>(sch: Schema<S>, n: nat)
    requires Proper(sch) && n < |sch.fields|
    ensures sch.fields[n] in sch.fields && sch.fields[n] !in sch.fields[..n]
    ensures forall s :: s in sch.fields[..n + 1] <==> s in sch.fields[..n] || s == sch.fields[n]
  {
    assert sch.fields[..n + 1] == sch.fields[..n] + [sch.fields[n]];
    forall i | 0 <= i < n ensures sch.fields[..n][i] != sch.fields[n] {}
  }

  lemma {:induction false} RowsRead<S, T>(sch: Schema<S>, value: S -> string, n: nat, s: S, decode: string -> Option<T>)
    requires Proper(sch) && n <= |sch.fields|
    ensures Find(Rows(sch, value, n), sch, s, decode) ==
            if s in sch.fields[..n] then Written(sch, value, s, decode) else None
  {
    hide Written, Row, Proper, Reader, PlainKey;
    if n > 0 {
      var f := sch.fields[n - 1];
      NewField(sch, n - 1);
      RowsRead(sch, value, n - 1, s, decode);
      RowRead(sch, value, f, s, decode);
      LatestAppend(Rows(sch, value, n - 1), Row(sch.keyOf(f), value(f)), Reader(sch, s, decode));
    }
  }

  lemma BlankIsNoField<S>(sch: Schema<S>, line: string)
    requires Blank(line)
    ensures FieldIn(sch, line).None?
  {
    assert IndexOf("", ':') == -1;
  }

  // ----- replacing the block of a text -----

  function OtherIn<S(==)>(sch: Schema<S>): string -> seq<string> {
    line => if FieldIn(sch, line).Some? then [] else [line]
  }

  /** The lines that belong to no field of the schema, blank lines included. */
  function OtherLines<S(==)>(lines: seq<string>, sch: Schema<S>): seq<string> {
    Collect(lines, OtherIn(sch))
  }

  function TrimBlankEnd(lines: seq<string>): seq<string> {
    if lines != [] && Blank(lines[|lines| - 1]) then TrimBlankEnd(lines[..|lines| - 1]) else lines
  }

  function TrimBlankStart(lines: seq<string>): seq<string> {
    if lines != [] && Blank(lines[0]) then TrimBlankStart(lines[1..]) else lines
  }

  function TrimBlank(lines: seq<string>): seq<string> {
    TrimBlankStart(TrimBlankEnd(lines))
  }

  /** What a text says besides the schema's fields. */
  function Kept<S(==)>(text: string, sch: Schema<S>): seq<string> {
    TrimBlank(OtherLines(Split(text, '\n'), sch))
  }

  function Compose(block: seq<string>, other: seq<string>): string {
    if block == [] then Join(other, '\n')
    else if other == [] then Join(block, '\n')
    else Join(block, '\n') + "\n\n" + Join(other, '\n')
  }

  /** The text with its block replaced. */
  function Put<S(==)>(text: string, sch: Schema<S>, value: S -> string): string {
    Compose(Block(sch, value), Kept(text, sch))
  }

  // ----- laws of trimming and composing -----

  predicate BlankTrimmed(lines: seq<string>) {
    lines == [] || (!Blank(lines[0]) && !Blank(lines[|lines| - 1]))
  }

  lemma {:induction false} TrimBlankEndPrefix(lines: seq<string>)
    ensures |TrimBlankEnd(lines)| <= |lines| && TrimBlankEnd(lines) == lines[..|TrimBlankEnd(lines)|]
    ensures TrimBlankEnd(lines) == [] || !Blank(TrimBlankEnd(lines)[|TrimBlankEnd(lines)| - 1])
    ensures forall l | l in lines[|TrimBlankEnd(lines)|..] :: Blank(l)
  {
    hide Blank;
    if lines != [] && Blank(lines[|lines| - 1]) {
      var n := |lines| - 1;
      TrimBlankEndPrefix(lines[..n]);
      var k := |TrimBlankEnd(lines[..n])|;
      assert lines[k..] == lines[..n][k..] + [lines[n]];
    }
  }

  lemma {:induction false} TrimBlankStartSuffix(lines: seq<string>)
    ensures |TrimBlankStart(lines)| <= |lines| && TrimBlankStart(lines) == lines[|lines| - |TrimBlankStart(lines)|..]
    ensures TrimBlankStart(lines) == [] || !Blank(TrimBlankStart(lines)[0])
    ensures forall l | l in lines[..|lines| - |TrimBlankStart(lines)|] :: Blank(l)
  {
    hide Blank;
    if lines != [] && Blank(lines[0]) {
      TrimBlankStartSuffix(lines[1..]);
      var k := |lines| - |TrimBlankStart(lines[1..])|;
      assert lines[..k] == [lines[0]] + lines[1..][..k - 1];
    }
  }

  /** Trimming takes a middle piece, trimmed at both ends, and only drops blank lines. */
  lemma TrimBlankSplits(lines: seq<string>) returns (head: seq<string>, tail: seq<string>)
    ensures lines == head + TrimBlank(lines) + tail
    ensures (forall l | l in head :: Blank(l)) && (forall l | l in tail :: Blank(l))
    ensures BlankTrimmed(TrimBlank(lines))
  {
    hide Blank;
    var front := TrimBlankEnd(lines);
    TrimBlankEndPrefix(lines);
    TrimBlankStartSuffix(front);
    hide TrimBlankEnd, TrimBlankStart;
    var middle := TrimBlank(lines);
    var k := |front| - |middle|;
    head, tail := front[..k], lines[|front|..];
    assert front == head + middle && lines == front + tail;
    assert middle != [] ==> middle[|middle| - 1] == front[|front| - 1];
  }

  lemma TrimBlankIdle(lines: seq<string>)
    requires BlankTrimmed(lines)
    ensures TrimBlank(lines) == lines && TrimBlank([""] + lines) == lines
  {
    assert Blank("");
    hide Blank;
    if lines == [] {
      assert [""][..0] == [] && [""] + lines == [""];
    } else {
      assert ([""] + lines)[1..] == lines;
      assert TrimBlankEnd([""] + lines) == [""] + lines;
    }
  }

  lemma TrimBlankRead<T>(lines: seq<string>, read: string -> Option<T>)
    requires forall l :: Blank(l) ==> read(l).None?
    ensures Latest(TrimBlank(lines), read) == Latest(lines, read)
  {
    hide Blank, TrimBlank;
    var head, tail := TrimBlankSplits(lines);
    LatestAppend(head + TrimBlank(lines), tail, read);
    LatestAppend(head, TrimBlank(lines), read);
    LatestNowhere(head, read);
    LatestNowhere(tail, read);
  }

  lemma {:induction false} OtherLinesAreOther<S>(lines: seq<string>, sch: Schema<S>)
    ensures forall l | l in OtherLines(lines, sch) :: l in lines && FieldIn(sch, l).None?
    ensures (forall l | l in lines :: FieldIn(sch, l).None?) ==> OtherLines(lines, sch) == lines
  {
    hide FieldIn;
    if lines != [] {
      var n := |lines| - 1;
      OtherLinesAreOther(lines[..n], sch);
      assert lines == lines[..n] + [lines[n]];
    }
  }

  lemma {:induction false} OtherLinesRead<S, T>(lines: seq<string>, sch: Schema<S>, read: string -> Option<T>)
    requires forall l :: FieldIn(sch, l).Some? ==> read(l).None?
    ensures Latest(OtherLines(lines, sch), read) == Latest(lines, read)
  {
    hide FieldIn;
    if lines != [] {
      var n := |lines| - 1;
      OtherLinesRead(lines[..n], sch, read);
      LatestAppend(OtherLines(lines[..n], sch), OtherIn(sch)(lines[n]), read);
      assert [lines[n]][..0] == [];
    }
  }

  lemma {:induction false} RowsAreFields<S>(sch: Schema<S>, value: S -> string, n: nat)
    requires Proper(sch) && OneLine(sch, value) && n <= |sch.fields|
    ensures forall l | l in Rows(sch, value, n) :: FieldIn(sch, l).Some? && Free(l, '\n') && l != ""
  {
    if n > 0 {
      var f := sch.fields[n - 1];
      assert f in sch.fields;
      RowsAreFields(sch, value, n - 1);
      RowIsField(sch, value, f);
      hide FieldIn, Proper, OneLine, Row;
    }
  }

  lemma RowIsField<S>(sch: Schema<S>, value: S -> string, f: S)
    requires Proper(sch) && OneLine(sch, value) && f in sch.fields
    ensures forall l | l in Row(sch.keyOf(f), value(f)) :: FieldIn(sch, l).Some? && Free(l, '\n') && l != ""
  {
    var key := sch.keyOf(f);
    assert PlainKey(key) && sch.fieldOf(key) == Some(f) && Free(value(f), '\n');
    EntryOfRow(key, value(f));
    hide Entry, Proper, OneLine;
    assert forall c | c in key + ": " + value(f) :: c in key || c == ':' || c == ' ' || c in value(f);
  }

  lemma KeptPlain<S>(text: string, sch: Schema<S>)
    ensures AllFree(Kept(text, sch), '\n') && BlankTrimmed(Kept(text, sch))
    ensures forall l | l in Kept(text, sch) :: FieldIn(sch, l).None?
  {
    hide FieldIn, Blank;
    var lines := Split(text, '\n');
    SplitPartsFree(text, '\n');
    OtherLinesAreOther(lines, sch);
    var head, tail := TrimBlankSplits(OtherLines(lines, sch));
    assert forall l | l in Kept(text, sch) :: l in head + Kept(text, sch) + tail;
  }

  /** The lines of a composed text. */
  lemma ComposeSplits(block: seq<string>, other: seq<string>)
    requires AllFree(other, '\n')
    ensures Split(Compose(block, other), '\n') ==
            if block == [] then (if other == [] then [""] else other)
            else if other == [] then SplitAll(block, '\n')
            else SplitAll(block, '\n') + [""] + other
  {
    if block == [] && other == [] {
      SplitFree("", '\n');
    } else if block == [] {
      SplitJoin(other, '\n');
    } else {
      SplitJoinAll(block, '\n');
      if other != [] {
        SplitJoin(other, '\n');
        var b, o := Join(block, '\n'), Join(other, '\n');
        assert b + "\n\n" + o == b + ['\n'] + ("" + ['\n'] + o);
        SplitAppend(b, "" + ['\n'] + o, '\n');
        SplitAppend("", o, '\n');
      }
    }
  }

  lemma ComposeLines(block: seq<string>, other: seq<string>)
    requires AllFree(block, '\n') && AllFree(other, '\n')
    ensures Split(Compose(block, other), '\n') ==
            if block == [] then (if other == [] then [""] else other)
            else if other == [] then block
            else block + [""] + other
  {
    ComposeSplits(block, other);
    SplitAllFree(block, '\n');
  }

  // ----- the laws of Put -----

  /** Reading after replacing the block: whatever reads the blank line as nothing sees the
      block first and then what was kept. */
  lemma ReadAfterPut<S, T>(text: string, sch: Schema<S>, value: S -> string, read: string -> Option<T>)
    requires Proper(sch) && OneLine(sch, value) && read("").None?
    ensures Latest(Split(Put(text, sch, value), '\n'), read) == Latest(Block(sch, value) + Kept(text, sch), read)
  {
    hide Blank, FieldIn, Kept, Proper;
    var block, kept := Block(sch, value), Kept(text, sch);
    RowsAreFields(sch, value, |sch.fields|);
    KeptPlain(text, sch);
    ComposeLines(block, kept);
    assert [] + kept == kept && block + [] == block && [""][..0] == [];
    LatestAppend(block, kept, read);
    LatestAppend(block + [""], kept, read);
    LatestAppend(block, [""], read);
  }

  lemma ReaderReads<S, T>(sch: Schema<S>, s: S, decode: string -> Option<T>)
    ensures forall l :: FieldIn(sch, l).None? ==> Reader(sch, s, decode)(l).None?
    ensures Reader(sch, s, decode)("").None?
  {
    assert Blank("");
    BlankIsNoField(sch, "");
    hide FieldIn;
  }

  lemma FindIsLatest<S, T>(lines: seq<string>, sch: Schema<S>, s: S, decode: string -> Option<T>)
    ensures Find(lines, sch, s, decode) == Latest(lines, Reader(sch, s, decode))
  {}

  lemma BlockIsRows<S>(sch: Schema<S>, value: S -> string)
    ensures Block(sch, value) == Rows(sch, value, |sch.fields|) && sch.fields[..|sch.fields|] == sch.fields
  {}

  /** What was written is what is found. */
  lemma FindAfterPut<S, T>(text: string, sch: Schema<S>, value: S -> string, s: S, decode: string -> Option<T>)
    requires Proper(sch) && OneLine(sch, value) && s in sch.fields
    ensures Find(Split(Put(text, sch, value), '\n'), sch, s, decode) == Written(sch, value, s, decode)
  {
    hide *;
    var read := Reader(sch, s, decode);
    ReaderReads(sch, s, decode);
    ReadAfterPut(text, sch, value, read);
    LatestAppend(Block(sch, value), Kept(text, sch), read);
    KeptPlain(text, sch);
    LatestNowhere(Kept(text, sch), read);
    BlockIsRows(sch, value);
    RowsRead(sch, value, |sch.fields|, s, decode);
    FindIsLatest(Split(Put(text, sch, value), '\n'), sch, s, decode);
    FindIsLatest(Block(sch, value), sch, s, decode);
  }

  /** Replacing the block does not touch the rest. */
  lemma KeptAfterPut<S>(text: string, sch: Schema<S>, value: S -> string)
    requires Proper(sch) && OneLine(sch, value)
    ensures Kept(Put(text, sch, value), sch) == Kept(text, sch)
  {
    var block, kept := Block(sch, value), Kept(text, sch);
    RowsAreFields(sch, value, |sch.fields|);
    KeptPlain(text, sch);
    ComposeLines(block, kept);
    assert Blank("");
    BlankIsNoField(sch, "");
    hide Blank, FieldIn, Proper, TrimBlank, Block;
    TrimBlankIdle(kept);
    TrimBlankIdle([]);
    assert [""] + [] == [""];
    CollectNothing(block, OtherIn(sch));
    OtherLinesAreOther(kept, sch);
    OtherLinesAreOther([""], sch);
    CollectAppend(block, [""], OtherIn(sch));
    CollectAppend(block + [""], kept, OtherIn(sch));
    assert [] + [""] == [""];
  }

  /** The last replacement wins, byte for byte. */
  lemma PutAfterPut<S>(text: string, sch: Schema<S>, first: S -> string, second: S -> string)
    requires Proper(sch) && OneLine(sch, first)
    ensures Put(Put(text, sch, first), sch, second) == Put(text, sch, second)
  {
    KeptAfterPut(text, sch, first);
  }

  // ----- values that span lines -----

  /** The second and later lines of the first `n` values. */
  function Spilled<S(==)>(sch: Schema<S>, value: S -> string, n: nat): seq<string>
    requires n <= |sch.fields|
  {
    if n == 0 then [] else Spilled(sch, value, n - 1) + Split(value(sch.fields[n - 1]), '\n')[1..]
  }

  /** What a block says that is no field of its own. */
  function Spill<S(==)>(sch: Schema<S>, value: S -> string): seq<string> {
    Spilled(sch, value, |sch.fields|)
  }

  /** The reader sees nothing in the schema's lines. */
  ghost predicate Blind<S, T>(sch: Schema<S>, read: string -> Option<T>) {
    forall l :: FieldIn(sch, l).Some? || Blank(l) ==> read(l).None?
  }

  lemma RowSplits(key: string, value: string)
    requires PlainKey(key)
    ensures SplitAll(Row(key, value), '\n') ==
            if value == "" then [] else [key + ": " + Split(value, '\n')[0]] + Split(value, '\n')[1..]
  {
    hide Split;
    if value != "" {
      var prefix := key + ": ";
      assert Free(prefix, '\n');
      SplitPrefix(prefix, value, '\n');
      assert [prefix + value][1..] == [];
    }
  }

  lemma RowStartsField<S>(sch: Schema<S>, f: S, value: string)
    requires Proper(sch) && f in sch.fields
    ensures FieldIn(sch, sch.keyOf(f) + ": " + value).Some?
  {
    EntryOfRow(sch.keyOf(f), value);
    hide Entry, PlainKey;
  }

  lemma RowSpills<S, T>(sch: Schema<S>, f: S, value: string, read: string -> Option<T>)
    requires Proper(sch) && f in sch.fields && Blind(sch, read)
    ensures Latest(SplitAll(Row(sch.keyOf(f), value), '\n'), read) == Latest(Split(value, '\n')[1..], read)
  {
    var parts := Split(value, '\n');
    assert PlainKey(sch.keyOf(f));
    RowSplits(sch.keyOf(f), value);
    RowStartsField(sch, f, parts[0]);
    hide Split, Row, FieldIn, Proper, PlainKey;
    if value == "" {
      SplitFree("", '\n');
    } else {
      var first := sch.keyOf(f) + ": " + parts[0];
      LatestAppend([first], parts[1..], read);
      ReadOne(first, read);
    }
  }

  lemma {:induction false} RowsSpill<S, T>(sch: Schema<S>, value: S -> string, n: nat, read: string -> Option<T>)
    requires Proper(sch) && Blind(sch, read) && n <= |sch.fields|
    ensures Latest(SplitAll(Rows(sch, value, n), '\n'), read) == Latest(Spilled(sch, value, n), read)
  {
    hide Row, Proper, Blind, Split, Latest;
    if n > 0 {
      var f := sch.fields[n - 1];
      RowsSpill(sch, value, n - 1, read);
      RowSpills(sch, f, value(f), read);
      SplitAllAppend(Rows(sch, value, n - 1), Row(sch.keyOf(f), value(f)), '\n');
      LatestAppend(SplitAll(Rows(sch, value, n - 1), '\n'), SplitAll(Row(sch.keyOf(f), value(f)), '\n'), read);
      LatestAppend(Spilled(sch, value, n - 1), Split(value(f), '\n')[1..], read);
    }
  }

  lemma {:induction false} OneLineSpillsNothing<S>(sch: Schema<S>, value: S -> string, n: nat)
    requires OneLine(sch, value) && n <= |sch.fields|
    ensures Spilled(sch, value, n) == []
  {
    if n > 0 {
      OneLineSpillsNothing(sch, value, n - 1);
      assert sch.fields[n - 1] in sch.fields;
      SplitFree(value(sch.fields[n - 1]), '\n');
    }
  }

  lemma KeptRead<S, T>(text: string, sch: Schema<S>, read: string -> Option<T>)
    requires Blind(sch, read)
    ensures Latest(Kept(text, sch), read) == Latest(Split(text, '\n'), read)
  {
    hide Blank, FieldIn, TrimBlank, Split;
    TrimBlankRead(OtherLines(Split(text, '\n'), sch), read);
    OtherLinesRead(Split(text, '\n'), sch, read);
  }

  lemma ReadComposed<T>(block: seq<string>, other: seq<string>, read: string -> Option<T>)
    requires AllFree(other, '\n') && read("").None?
    ensures Latest(Split(Compose(block, other), '\n'), read) ==
            if Latest(other, read).Some? then Latest(other, read) else Latest(SplitAll(block, '\n'), read)
  {
    ComposeSplits(block, other);
    hide Compose, Split;
    var rows := SplitAll(block, '\n');
    ReadOne("", read);
    LatestAppend(rows, [""], read);
    LatestAppend(rows + [""], other, read);
    hide Latest;
    assert Latest([], read).None? by { LatestNowhere([], read); }
  }

  /** What a reader that sees nothing in the schema's lines sees after the block was replaced,
      whatever the values: what it saw before, or else what the values' further lines say. */
  lemma ReadPastPut<S, T>(text: string, sch: Schema<S>, value: S -> string, read: string -> Option<T>)
    requires Proper(sch) && Blind(sch, read)
    ensures Latest(Split(Put(text, sch, value), '\n'), read) ==
            if Latest(Split(text, '\n'), read).Some? then Latest(Split(text, '\n'), read)
            else Latest(Spill(sch, value), read)
  {
    assert Blank("");
    assert read("").None?;
    hide *;
    KeptPlain(text, sch);
    KeptRead(text, sch, read);
    ReadComposed(Block(sch, value), Kept(text, sch), read);
    RowsSpill(sch, value, |sch.fields|, read);
    BlockIsRows(sch, value);
    PutIsComposed(text, sch, value);
  }

  lemma PutIsComposed<S>(text: string, sch: Schema<S>, value: S -> string)
    ensures Put(text, sch, value) == Compose(Block(sch, value), Kept(text, sch))
    ensures Spill(sch, value) == Spilled(sch, value, |sch.fields|)
  {}

  /** With one-line values such a reader sees no difference. */
  lemma ReadFramedByPut<S, T>(text: string, sch: Schema<S>, value: S -> string, read: string -> Option<T>)
    requires Proper(sch) && OneLine(sch, value) && Blind(sch, read)
    ensures Latest(Split(Put(text, sch, value), '\n'), read) == Latest(Split(text, '\n'), read)
  {
    ReadPastPut(text, sch, value, read);
    OneLineSpillsNothing(sch, value, |sch.fields|);
    hide Put, Split, Proper, OneLine, Blind;
  }

  // ----- the setters' loops -----

  /** Collect the other lines, trim blank lines at both ends, and put the new block first. */
  method ReplaceBlock<S(==)>(text: string, sch: Schema<S>, formatted: string, ghost value: S -> string) returns (r: string)
    requires formatted == Join(Block(sch, value), '\n')
    requires Block(sch, value) == [] <==> formatted == ""
    ensures r == Put(text, sch, value)
    ensures var rest := Join(Kept(text, sch), '\n');
            r == if formatted == "" then rest else if Kept(text, sch) == [] then formatted else formatted + "\n\n" + rest
  {
    var otherLines: seq<string> := [];
    var lines := Split(text, '\n');
    if text != "" {
      for i := 0 to |lines|
        invariant otherLines == OtherLines(lines[..i], sch)
      {
        CollectNext(lines, i, OtherIn(sch));
        var trimmed := TrimSpace(lines[i]);
        if trimmed == "" {
          BlankIsNoField(sch, lines[i]);
          otherLines := otherLines + [lines[i]];
          continue;
        }
        var colon := IndexOf(trimmed, ':');
        if colon == -1 {
          otherLines := otherLines + [lines[i]];
          continue;
        }
        if sch.fieldOf(ToLower(TrimSpace(trimmed[..colon]))).None? {
          otherLines := otherLines + [lines[i]];
        }
      }
      assert lines[..|lines|] == lines;
    } else {
      EmptyKept(sch);
    }
    ghost var all := otherLines;
    while |otherLines| > 0 && TrimSpace(otherLines[|otherLines| - 1]) == ""
      invariant TrimBlankEnd(otherLines) == TrimBlankEnd(all)
      decreases |otherLines|
    {
      otherLines := otherLines[..|otherLines| - 1];
    }
    ghost var front := otherLines;
    while |otherLines| > 0 && TrimSpace(otherLines[0]) == ""
      invariant TrimBlankStart(otherLines) == TrimBlankStart(front)
      decreases |otherLines|
    {
      otherLines := otherLines[1..];
    }
    assert otherLines == Kept(text, sch);
    if formatted == "" {
      return Join(otherLines, '\n');
    }
    if |otherLines| == 0 {
      return formatted;
    }
    r := formatted + "\n\n" + Join(otherLines, '\n');
  }

  lemma EmptyKept<S>(sch: Schema<S>)
    ensures Kept("", sch) == []
  {
    assert Blank("");
    BlankIsNoField(sch, "");
    hide Blank, FieldIn;
    assert Split("", '\n') == [""] && [""][..0] == [];
    assert OtherLines([""], sch) == [] + [""];
    TrimBlankIdle([]);
    assert [""] + [] == [""];
  }

  lemma {:induction false} RowsNonEmpty<S>(sch: Schema<S>, value: S -> string, n: nat)
    requires n <= |sch.fields|
    ensures forall l | l in Rows(sch, value, n) :: l != ""
  {
    if n > 0 {
      RowsNonEmpty(sch, value, n - 1);
    }
  }

  lemma BlockEmptyIff<S>(sch: Schema<S>, value: S -> string)
    ensures Block(sch, value) == [] <==> Join(Block(sch, value), '\n') == ""
  {
    RowsNonEmpty(sch, value, |sch.fields|);
    var block := Block(sch, value);
    if block != [] {
      assert block[0] in block;
    }
  }

  // ----- what the parsers find -----

  lemma EntryIsClean(line: string)
    ensures Entry(line).Some? && Free(line, '\n') ==> Trimmed(Entry(line).value.1) && Free(Entry(line).value.1, '\n')
  {
    if Entry(line).Some? {
      var t := TrimSpace(line);
      TrimSpaceTrims(line);
      TrimSpaceTrims(t[IndexOf(t, ':') + 1..]);
    }
  }

  /** The decoder gives the value itself, or nothing. */
  predicate Faithful(decode: string -> Option<string>, v: string) {
    decode(v).None? || decode(v).value == v || decode(v).value == ""
  }

  /** A value found by a faithful decoder is one trimmed line. */
  lemma FoundIsClean<S>(text: string, sch: Schema<S>, s: S, decode: string -> Option<string>)
    requires forall v :: Faithful(decode, v)
    ensures var v := Find(Split(text, '\n'), sch, s, decode).GetOr("");
            Trimmed(v) && Free(v, '\n')
  {
    hide Split, Entry, FieldIn, Trimmed, Free;
    var lines := Split(text, '\n');
    assert Trimmed("") && Free("", '\n') by { EmptyIsClean(); }
    if Find(lines, sch, s, decode).Some? {
      LatestIsRead(lines, Reader(sch, s, decode));
      var l :| l in lines && Reader(sch, s, decode)(l) == Find(lines, sch, s, decode);
      SplitPartsFree(text, '\n');
      assert Free(l, '\n');
      EntryIsClean(l);
      FieldHasEntry(sch, l);
      assert Faithful(decode, Entry(l).value.1);
    }
  }

  /** What is found was decoded from some value. */
  lemma FoundIsDecoded<S, T>(lines: seq<string>, sch: Schema<S>, s: S, decode: string -> Option<T>)
    ensures var found := Find(lines, sch, s, decode); found.Some? ==> exists v :: decode(v) == found
  {
    if Find(lines, sch, s, decode).Some? {
      LatestIsRead(lines, Reader(sch, s, decode));
      var l :| l in lines && Reader(sch, s, decode)(l) == Find(lines, sch, s, decode);
      FieldHasEntry(sch, l);
      hide Entry, FieldIn;
      assert decode(Entry(l).value.1) == Find(lines, sch, s, decode);
    }
  }

  lemma EmptyIsClean()
    ensures Trimmed("") && Free("", '\n')
  {}

  lemma FieldHasEntry<S>(sch: Schema<S>, line: string)
    ensures FieldIn(sch, line).Some? ==> Entry(line).Some?
  {}
}
