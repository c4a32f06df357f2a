/** Descriptions that are a title, a blank line and one line for every field of a schema. */
module FieldSheet {
  import opened Text
  import opened Lines
  import opened FieldBlock

  /** `fmt.Sprintf("<key>: %s", value)`. */
  function Line(key: string, value: string): string {
    key + ": " + value
  }

  function FieldLine<S(==)>(sch: Schema<S>, shown: S -> string, s: S): string {
    Line(sch.keyOf(s), shown(s))
  }

  /** The lines of the first `n` fields. */
  function FieldLines<S(==)>(sch: Schema<S>, shown: S -> string, n: nat): seq<string>
    requires n <= |sch.fields|
  {
    if n == 0 then [] else FieldLines(sch, shown, n - 1) + [FieldLine(sch, shown, sch.fields[n - 1])]
  }

  function Sheet<S(==)>(title: string, sch: Schema<S>, shown: S -> string): string {
    Join([title, ""] + FieldLines(sch, shown, |sch.fields|), '\n')
  }

  lemma NothingRead<S, T>(sch: Schema<S>, s: S, decode: string -> Option<T>)
    ensures Find([], sch, s, decode).None?
  {}

  lemma LineRead<S, T>(sch: Schema<S>, shown: S -> string, f: S, s: S, decode: string -> Option<T>)
    requires Proper(sch) && f in sch.fields
    ensures Find([FieldLine(sch, shown, f)], sch, s, decode) == if f == s then decode(TrimSpace(shown(s))) else None
  {
    var key := sch.keyOf(f);
    assert PlainKey(key) && sch.fieldOf(key) == Some(f);
    EntryOfRow(key, shown(f));
    hide Entry, PlainKey, Proper;
    ReadOne(FieldLine(sch, shown, f), Reader(sch, s, decode));
  }

  lemma {:induction false} FieldLinesRead<S, T>(sch: Schema<S>, shown: S -> string, n: nat, s: S, decode: string -> Option<T>)
    requires Proper(sch) && n <= |sch.fields|
    ensures Find(FieldLines(sch, shown, n), sch, s, decode) ==
            if s in sch.fields[..n] then decode(TrimSpace(shown(s))) else None
  {
    hide FieldLine, Proper, Reader, PlainKey, Latest;
    if n > 0 {
      var f := sch.fields[n - 1];
      NewField(sch, n - 1);
      FieldLinesRead(sch, shown, n - 1, s, decode);
      LineRead(sch, shown, f, s, decode);
      LatestAppend(FieldLines(sch, shown, n - 1), [FieldLine(sch, shown, f)], Reader(sch, s, decode));
    } else {
      NothingRead(sch, s, decode);
    }
  }

  lemma {:induction false} FieldLinesFree<S>(sch: Schema<S>, shown: S -> string, n: nat)
    requires Proper(sch) && OneLine(sch, shown) && n <= |sch.fields|
    ensures AllFree(FieldLines(sch, shown, n), '\n')
  {
    if n > 0 {
      var f := sch.fields[n - 1];
      FieldLinesFree(sch, shown, n - 1);
      assert f in sch.fields && PlainKey(sch.keyOf(f)) && Free(shown(f), '\n');
      hide OneLine, Proper;
      assert forall c | c in FieldLine(sch, shown, f) :: c in sch.keyOf(f) || c == ':' || c == ' ' || c in shown(f);
    }
  }

  lemma SheetSplits<S>(title: string, sch: Schema<S>, shown: S -> string)
    requires Proper(sch) && OneLine(sch, shown)
    ensures Split(Sheet(title, sch, shown), '\n') ==
            Split(title, '\n') + ([""] + FieldLines(sch, shown, |sch.fields|))
  {
    var fields := FieldLines(sch, shown, |sch.fields|);
    FieldLinesFree(sch, shown, |sch.fields|);
    hide FieldLines, Split, Proper, OneLine, Join;
    assert Free("", '\n');
    var rest := [""] + fields;
    assert [title, ""] + fields == [title] + rest;
    SplitJoinAll([title] + rest, '\n');
    assert ([title] + rest)[1..] == rest;
    SplitAllFree(rest, '\n');
  }

  /** Whatever the title says, every field reads as it was written. */
  lemma FindInSheet<S, T>(title: string, sch: Schema<S>, shown: S -> string, s: S, decode: string -> Option<T>)
    requires Proper(sch) && OneLine(sch, shown) && s in sch.fields && decode(TrimSpace(shown(s))).Some?
    ensures Find(Split(Sheet(title, sch, shown), '\n'), sch, s, decode) == decode(TrimSpace(shown(s)))
  {
    var fields := FieldLines(sch, shown, |sch.fields|);
    SheetSplits(title, sch, shown);
    FieldLinesRead(sch, shown, |sch.fields|, s, decode);
    assert sch.fields[..|sch.fields|] == sch.fields;
    hide FieldLines, Split, Sheet, Proper, OneLine, Reader, Latest;
    LatestAppend([""], fields, Reader(sch, s, decode));
    LatestAppend(Split(title, '\n'), [""] + fields, Reader(sch, s, decode));
  }

  // ----- values as they come back -----

  function Unnull(v: string): string {
    if v == "null" then "" else v
  }

  function OrNull(v: string): string {
    if v != "" then v else "null"
  }

  function Read(v: string): Option<string> {
    Some(Unnull(v))
  }

  /** What is left of a value after a round trip through one line of text. */
  function Settled(v: string): string {
    Unnull(TrimSpace(v))
  }

  /** One trimmed line other than the word null. */
  predicate CleanText(v: string) {
    Trimmed(v) && Free(v, '\n') && v != "null"
  }

  lemma NullSettles()
    ensures TrimSpace("null") == "null" && TrimSpace("") == ""
  {
    TrimSpaceTrims("null");
  }

  lemma OrNullSettles(v: string)
    ensures Unnull(TrimSpace(OrNull(v))) == Settled(v)
  {
    NullSettles();
  }

  lemma CleanSettles(v: string)
    requires CleanText(v)
    ensures Settled(v) == v && Free(v, '\n')
  {
    TrimSpaceTrims(v);
  }

  lemma UnnullIsClean(v: string)
    requires Trimmed(v) && Free(v, '\n')
    ensures CleanText(Unnull(v))
  {}

  lemma EmptyIsCleanText()
    ensures CleanText("")
  {}

  /** What is found in a text is always clean. */
  lemma FoundIsCleanText<S>(text: string, sch: Schema<S>, s: S)
    ensures CleanText(Find(Split(text, '\n'), sch, s, Read).GetOr(""))
  {
    var lines := Split(text, '\n');
    hide Split, Entry, CleanText, Trimmed, Free, Unnull, FieldIn;
    EmptyIsCleanText();
    if Find(lines, sch, s, Read).Some? {
      LatestIsRead(lines, Reader(sch, s, Read));
      var l :| l in lines && Reader(sch, s, Read)(l) == Find(lines, sch, s, Read);
      SplitPartsFree(text, '\n');
      assert Free(l, '\n');
      EntryIsClean(l);
      FieldHasEntry(sch, l);
      UnnullIsClean(Entry(l).value.1);
      assert Reader(sch, s, Read)(l) == Read(Entry(l).value.1);
    }
  }
}
