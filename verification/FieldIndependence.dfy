/** The attachment block and the merge-request block of one description do not interfere. */
module FieldIndependence {
  import opened Text
  import opened Lines
  import opened Numbers
  import opened FieldBlock
  import Att = AttachmentFields
  import MR = MergeRequestFields

  lemma AttachmentKeyShape(key: string)
    requires Att.FieldOf(key).Some?
    ensures |key| >= 2 && (key[0] == 'a' ==> key[1] == 't') && (key[0] == 'a' || key[0] == 'd' || key[0] == 'n')
  {}

  lemma MergeRequestKeyShape(key: string)
    requires MR.FieldOf(key).Some?
    ensures |key| >= 2 && (key[0] == 'a' ==> key[1] == 'g') && key[0] != 'd' && key[0] != 'n'
  {}

  lemma KeysDisjoint(key: string)
    ensures Att.FieldOf(key).None? || MR.FieldOf(key).None?
  {
    hide Att.FieldOf, MR.FieldOf;
    if Att.FieldOf(key).Some? && MR.FieldOf(key).Some? {
      AttachmentKeyShape(key);
      MergeRequestKeyShape(key);
    }
  }

  lemma LinesDisjoint(line: string)
    ensures FieldIn(Att.SCHEMA, line).None? || FieldIn(MR.SCHEMA, line).None?
    ensures Blank(line) ==> FieldIn(Att.SCHEMA, line).None? && FieldIn(MR.SCHEMA, line).None?
  {
    if Entry(line).Some? {
      KeysDisjoint(Entry(line).value.0);
    }
    if Blank(line) {
      BlankIsNoField(Att.SCHEMA, line);
      BlankIsNoField(MR.SCHEMA, line);
    }
  }

  // ----- setting the attachment -----

  /** What the values of an attachment say beyond their first lines. */
  function AttachmentSpill(a: Option<Att.Attachment>): seq<string> {
    Spill(Att.SCHEMA, Att.Values(a.GetOr(Att.EMPTY)))
  }

  lemma MergeRequestReaderIsBlind(f: MR.Field)
    ensures Blind(Att.SCHEMA, Reader(MR.SCHEMA, f, MR.Decode(f)))
  {
    hide FieldIn, Blank, Att.FieldOf, MR.FieldOf;
    forall l | FieldIn(Att.SCHEMA, l).Some? || Blank(l) ensures Reader(MR.SCHEMA, f, MR.Decode(f))(l).None? {
      LinesDisjoint(l);
    }
  }

  /** Each merge-request field reads as before, or if it was not there, as the further lines of
      the new values say. */
  lemma SetAttachmentShows(text: string, a: Option<Att.Attachment>, f: MR.Field)
    ensures var before := MR.Raw(Split(text, '\n'), f);
            MR.Raw(Split(Att.Updated(text, a), '\n'), f) ==
            if before.Some? then before else MR.Raw(AttachmentSpill(a), f)
  {
    Att.SchemaIsProper();
    MergeRequestReaderIsBlind(f);
    hide Att.FieldOf, MR.FieldOf, Spill, Split, Proper, Put, Latest, Blind;
    ReadPastPut(text, Att.SCHEMA, Att.Values(a.GetOr(Att.EMPTY)), Reader(MR.SCHEMA, f, MR.Decode(f)));
  }

  /** A merge-request field that adds nothing to what the lines before said: it is not new, or
      it is a retry count of zero beside other fields. */
  predicate AddsNothing(before: seq<string>, more: seq<string>, f: MR.Field) {
    || MR.Raw(before, f).Some?
    || MR.Raw(more, f).None?
    || (f == MR.RetryCount && MR.HasFields(before) && ScanInt(MR.Raw(more, f).value) == Some(0))
  }

  ghost predicate Overlays(before: seq<string>, more: seq<string>, after: seq<string>) {
    forall f: MR.Field :: MR.Raw(after, f) == if MR.Raw(before, f).Some? then MR.Raw(before, f) else MR.Raw(more, f)
  }

  lemma CountIsReadable(lines: seq<string>)
    ensures var v := MR.Raw(lines, MR.RetryCount); v.Some? ==> ScanInt(v.value).Some?
    ensures ScanInt("").None?
  {
    MR.RawIsDecoded(lines, MR.RetryCount);
  }

  lemma OverlaidMergeRequest(before: seq<string>, more: seq<string>, after: seq<string>)
    requires Overlays(before, more, after)
    ensures MR.HasFields(before) ==> MR.HasFields(after)
    ensures (MR.HasFields(before) <==> MR.HasFields(after)) &&
            (MR.HasFields(before) ==> MR.Gathered(before) == MR.Gathered(after)) <==>
            forall f: MR.Field :: AddsNothing(before, more, f)
  {
    CountIsReadable(before);
    CountIsReadable(more);
    hide MR.Raw, ScanInt;
    if MR.HasFields(before) {
      var f: MR.Field :| MR.Raw(before, f).Some?;
      assert MR.Raw(after, f).Some?;
      if MR.Gathered(before) == MR.Gathered(after) {
        forall f: MR.Field ensures AddsNothing(before, more, f) {
          if f != MR.RetryCount && MR.Raw(after, f).Some? {
            assert f in MR.Gathered(after).texts;
          }
        }
      }
      if forall f: MR.Field :: AddsNothing(before, more, f) {
        assert AddsNothing(before, more, MR.RetryCount);
        forall f: MR.Field ensures f != MR.RetryCount ==> MR.Raw(after, f) == MR.Raw(before, f) {
          assert AddsNothing(before, more, f);
        }
        assert MR.Gathered(before).texts == MR.Gathered(after).texts;
      }
    } else if MR.HasFields(after) {
      var f: MR.Field :| MR.Raw(after, f).Some?;
      assert !AddsNothing(before, more, f);
    } else {
      forall f: MR.Field ensures AddsNothing(before, more, f) {
        assert MR.Raw(after, f).None?;
      }
    }
  }

  /** Setting the attachment changes what ParseMRFields returns exactly when a further line of
      some value adds something to it. */
  lemma SetAttachmentKeepsMergeRequestIff(text: string, a: Option<Att.Attachment>)
    ensures MR.Parsed(Att.Updated(text, a)) == MR.Parsed(text) <==>
            forall f: MR.Field :: AddsNothing(Split(text, '\n'), AttachmentSpill(a), f)
  {
    var before, after := Split(text, '\n'), Split(Att.Updated(text, a), '\n');
    hide *;
    MergeRequestIs(text);
    MergeRequestIs(Att.Updated(text, a));
    forall f: MR.Field
      ensures MR.Raw(after, f) == if MR.Raw(before, f).Some? then MR.Raw(before, f) else MR.Raw(AttachmentSpill(a), f)
    {
      SetAttachmentShows(text, a, f);
    }
    assert Overlays(before, AttachmentSpill(a), after) by { OverlaysMeans(before, AttachmentSpill(a), after); }
    OverlaidMergeRequest(before, AttachmentSpill(a), after);
  }

  lemma MergeRequestIs(text: string)
    ensures var lines := Split(text, '\n');
            MR.Parsed(text) == if MR.HasFields(lines) then Some(MR.Gathered(lines)) else None
  {
    hide MR.HasFields, MR.Gathered, Split;
  }

  lemma AttachmentIs(text: string)
    ensures var lines := Split(text, '\n');
            Att.Parsed(text) == if Att.HasFields(lines) then Some(Att.Gathered(lines)) else None
  {
    hide Att.HasFields, Att.Gathered, Split;
  }

  lemma OverlaysMeans(before: seq<string>, more: seq<string>, after: seq<string>)
    ensures Overlays(before, more, after) <==> forall f: MR.Field ::
              MR.Raw(after, f) == if MR.Raw(before, f).Some? then MR.Raw(before, f) else MR.Raw(more, f)
  {}

  /** So an attachment whose values are one line each never changes it. */
  lemma SetAttachmentKeepsMergeRequest(text: string, a: Att.Attachment)
    requires Att.OneLineEach(a)
    ensures MR.Parsed(Att.Updated(text, Some(a))) == MR.Parsed(text)
  {
    Att.CleanIsOneLine(a);
    OneLineSpillsNothing(Att.SCHEMA, Att.Values(a), |Att.SCHEMA.fields|);
    SetAttachmentKeepsMergeRequestIff(text, Some(a));
    hide MR.Parsed, Att.Updated, MR.FieldOf, Split;
  }

  // ----- setting the merge request -----

  /** What the texts of a merge request say beyond their first lines. */
  function MergeRequestSpill(m: Option<MR.MergeRequest>): seq<string> {
    Spill(MR.SCHEMA, MR.Values(m.GetOr(MR.EMPTY)))
  }

  lemma AttachmentReaderIsBlind(f: Att.Field)
    ensures Blind(MR.SCHEMA, Reader(Att.SCHEMA, f, Att.NonEmpty))
  {
    hide FieldIn, Blank, Att.FieldOf, MR.FieldOf;
    forall l | FieldIn(MR.SCHEMA, l).Some? || Blank(l) ensures Reader(Att.SCHEMA, f, Att.NonEmpty)(l).None? {
      LinesDisjoint(l);
    }
  }

  /** Each attachment field reads as before, or if it was not there, as the further lines of the
      new texts say. */
  lemma SetMergeRequestShows(text: string, m: Option<MR.MergeRequest>, f: Att.Field)
    ensures var before := Att.Raw(Split(text, '\n'), f);
            Att.Raw(Split(MR.Updated(text, m), '\n'), f) ==
            if before.Some? then before else Att.Raw(MergeRequestSpill(m), f)
  {
    MR.SchemaIsProper();
    AttachmentReaderIsBlind(f);
    hide Att.FieldOf, MR.FieldOf, Spill, Split, Proper, Put, Latest, Blind;
    ReadPastPut(text, MR.SCHEMA, MR.Values(m.GetOr(MR.EMPTY)), Reader(Att.SCHEMA, f, Att.NonEmpty));
  }

  /** An attachment field that adds nothing: it is not new, or it is a no_merge other than true
      beside other fields. */
  predicate AttachesNothing(before: seq<string>, more: seq<string>, f: Att.Field) {
    || Att.Raw(before, f).Some?
    || Att.Raw(more, f).None?
    || (f == Att.NoMerge && Att.HasFields(before) && ToLower(Att.Raw(more, f).value) != "true")
  }

  /** Setting the merge request changes what ParseAttachmentFields returns exactly when a further
      line of some text adds something to it. */
  lemma SetMergeRequestKeepsAttachmentIff(text: string, m: Option<MR.MergeRequest>)
    ensures Att.Parsed(MR.Updated(text, m)) == Att.Parsed(text) <==>
            forall f: Att.Field :: AttachesNothing(Split(text, '\n'), MergeRequestSpill(m), f)
  {
    var before, after, more := Split(text, '\n'), Split(MR.Updated(text, m), '\n'), MergeRequestSpill(m);
    hide *;
    AttachmentIs(text);
    AttachmentIs(MR.Updated(text, m));
    forall f: Att.Field
      ensures Att.Raw(after, f) == if Att.Raw(before, f).Some? then Att.Raw(before, f) else Att.Raw(more, f)
      ensures Att.Raw(after, f).Some? ==> Att.Raw(after, f).value != ""
    {
      SetMergeRequestShows(text, m, f);
      Att.RawIsNotEmpty(after, f);
    }
    OverlaidAttachment(before, more, after);
  }

  lemma OverlaidAttachment(before: seq<string>, more: seq<string>, after: seq<string>)
    requires forall f: Att.Field ::
               && Att.Raw(after, f) == (if Att.Raw(before, f).Some? then Att.Raw(before, f) else Att.Raw(more, f))
               && (Att.Raw(after, f).Some? ==> Att.Raw(after, f).value != "")
    ensures (if Att.HasFields(after) then Some(Att.Gathered(after)) else None) ==
            (if Att.HasFields(before) then Some(Att.Gathered(before)) else None) <==>
            forall f: Att.Field :: AttachesNothing(before, more, f)
  {
    hide Att.Raw;
    assert ToLower("") == "";
    hide ToLower;
    var all := AttachesNothing(before, more, Att.Molecule) && AttachesNothing(before, more, Att.At) &&
               AttachesNothing(before, more, Att.Args) && AttachesNothing(before, more, Att.DispatchedBy) &&
               AttachesNothing(before, more, Att.NoMerge);
    forall f: Att.Field ensures all ==> AttachesNothing(before, more, f) {
      match f {
        case Molecule =>
        case At =>
        case Args =>
        case DispatchedBy =>
        case NoMerge =>
      }
    }
  }

  /** So a merge request whose texts are one line each never changes it. */
  lemma SetMergeRequestKeepsAttachment(text: string, m: MR.MergeRequest)
    requires MR.OneLineEach(m)
    ensures Att.Parsed(MR.Updated(text, Some(m))) == Att.Parsed(text)
  {
    MR.ValuesAreOneLine(m);
    OneLineSpillsNothing(MR.SCHEMA, MR.Values(m), |MR.SCHEMA.fields|);
    SetMergeRequestKeepsAttachmentIff(text, Some(m));
    hide Att.Parsed, MR.Updated, Att.FieldOf, Split;
  }

  // ----- inputs that fail -----

  lemma {:induction false} OneSpills<S>(sch: Schema<S>, value: S -> string, i: nat, n: nat)
    requires i < |sch.fields| && n <= |sch.fields|
    requires forall k | 0 <= k < |sch.fields| && k != i :: value(sch.fields[k]) == ""
    ensures Spilled(sch, value, n) == if i < n then Split(value(sch.fields[i]), '\n')[1..] else []
  {
    assert Split("", '\n')[1..] == [];
    hide Split;
    if n > 0 {
      OneSpills(sch, value, i, n - 1);
    }
  }

  lemma SecondLine(first: string, second: string)
    requires Free(first, '\n') && Free(second, '\n')
    ensures Split(first + "\n" + second, '\n')[1..] == [second]
  {
    SplitAppend(first, second, '\n');
    SplitFree(first, '\n');
    SplitFree(second, '\n');
    hide Split;
    assert first + ['\n'] + second == first + "\n" + second;
  }

  lemma SecondLines()
    ensures Split("x\nbranch: y", '\n')[1..] == ["branch: y"]
    ensures Split("x\nattached_args: y", '\n')[1..] == ["attached_args: y"]
  {
    hide Split;
    SecondLine("x", "branch: y");
    SecondLine("x", "attached_args: y");
    assert "x" + "\n" + "branch: y" == "x\nbranch: y" && "x" + "\n" + "attached_args: y" == "x\nattached_args: y";
  }

  lemma LetterIsTrimmed()
    ensures TrimSpace("y") == "y"
  {
    TrimSpaceTrims("y");
  }

  lemma ReadsRow(key: string)
    requires PlainKey(key)
    ensures Entry(key + ": y") == Some((key, "y"))
  {
    hide *;
    EntryOfRow(key, "y");
    LetterIsTrimmed();
    assert key + ": " + "y" == key + ": y";
  }

  /** An argument text with a line break in it can make a merge request up. */
  lemma LineBreakInjects()
    ensures var a := Att.Attachment("", "", "x\nbranch: y", "", false);
            MR.Parsed("").None? && MR.Parsed(Att.Updated("", Some(a))).Some?
  {
    var a := Att.Attachment("", "", "x\nbranch: y", "", false);
    hide Att.Updated, Split, MR.Raw, MR.Gathered, AttachmentSpill;
    forall f: MR.Field ensures MR.Raw(Split("", '\n'), f).None? { NothingInEmpty(f); }
    SetAttachmentShows("", Some(a), MR.Branch);
    InjectedBranch();
  }

  lemma NothingInEmpty(f: MR.Field)
    ensures MR.Raw(Split("", '\n'), f).None?
  {
    BlankIsNoField(MR.SCHEMA, "");
    hide MR.FieldOf;
    assert Split("", '\n') == [""] && [""][..0] == [];
  }

  lemma InjectedBranch()
    ensures MR.Raw(AttachmentSpill(Some(Att.Attachment("", "", "x\nbranch: y", "", false))), MR.Branch) == Some("y")
  {
    MR.KeyIsPlain(MR.Branch);
    MR.KeyIsRead(MR.Branch);
    BranchKey();
    hide *;
    var lines := ["branch: y"];
    SpilledBranch();
    ReadsRow("branch");
    assert "branch" + ": y" == lines[0];
    MR.RawNext(lines, 0, MR.Branch);
    assert lines[..1] == lines;
  }

  lemma SpilledBranch()
    ensures AttachmentSpill(Some(Att.Attachment("", "", "x\nbranch: y", "", false))) == ["branch: y"]
  {
    var a := Att.Attachment("", "", "x\nbranch: y", "", false);
    hide Split, Spilled, Att.FieldOf, Att.KeyOf;
    OneSpills(Att.SCHEMA, Att.Values(a), 2, 5);
    AttachmentSpillIs(a);
    hide *;
    SecondLines();
  }

  /** A branch name with a line break in it can make an attachment up. */
  lemma LineBreakAttaches()
    ensures var m := MR.MergeRequest(map[MR.Branch := "x\nattached_args: y"], 0);
            Att.Parsed("").None? && Att.Parsed(MR.Updated("", Some(m))).Some?
  {
    var m := MR.MergeRequest(map[MR.Branch := "x\nattached_args: y"], 0);
    hide MR.Updated, Split, Att.Raw, Att.Gathered, MergeRequestSpill;
    forall f: Att.Field ensures Att.Raw(Split("", '\n'), f).None? { NoAttachmentInEmpty(f); }
    SetMergeRequestShows("", Some(m), Att.Args);
    InjectedArgs();
  }

  lemma NoAttachmentInEmpty(f: Att.Field)
    ensures Att.Raw(Split("", '\n'), f).None?
  {
    BlankIsNoField(Att.SCHEMA, "");
    hide Att.FieldOf;
    assert Split("", '\n') == [""] && [""][..0] == [];
  }

  lemma InjectedArgs()
    ensures Att.Raw(MergeRequestSpill(Some(MR.MergeRequest(map[MR.Branch := "x\nattached_args: y"], 0))), Att.Args) == Some("y")
  {
    Att.KeyIsPlain(Att.Args);
    Att.KeyIsRead(Att.Args);
    ArgsKey();
    hide *;
    var lines := ["attached_args: y"];
    SpilledArgs();
    ReadsRow("attached_args");
    assert "attached_args" + ": y" == lines[0];
    Att.RawNext(lines, 0, Att.Args);
    assert lines[..1] == lines;
  }

  lemma BranchKey()
    ensures MR.KeyOf(MR.Branch) == "branch" && MR.Decode(MR.Branch)("y") == Some("y")
  {}

  lemma ArgsKey()
    ensures Att.KeyOf(Att.Args) == "attached_args"
  {}

  lemma SpilledArgs()
    ensures MergeRequestSpill(Some(MR.MergeRequest(map[MR.Branch := "x\nattached_args: y"], 0))) == ["attached_args: y"]
  {
    var m := MR.MergeRequest(map[MR.Branch := "x\nattached_args: y"], 0);
    hide *;
    OnlyBranch("x\nattached_args: y");
    MergeRequestSpillIs(m);
    OneSpills(MR.SCHEMA, MR.Values(m), 0, 13);
    SecondLines();
  }

  lemma MergeRequestSpillIs(m: MR.MergeRequest)
    ensures MergeRequestSpill(Some(m)) == Spilled(MR.SCHEMA, MR.Values(m), |MR.SCHEMA.fields|)
  {
    hide Spilled, MR.FieldOf, MR.KeyOf;
  }

  lemma AttachmentSpillIs(a: Att.Attachment)
    ensures AttachmentSpill(Some(a)) == Spilled(Att.SCHEMA, Att.Values(a), |Att.SCHEMA.fields|)
  {
    hide Spilled, Att.FieldOf, Att.KeyOf;
  }

  lemma OnlyBranch(branch: string)
    ensures var value := MR.Values(MR.MergeRequest(map[MR.Branch := branch], 0));
            |MR.SCHEMA.fields| == 13 && value(MR.SCHEMA.fields[0]) == branch &&
            forall k | 0 < k < 13 :: value(MR.SCHEMA.fields[k]) == ""
  {
    MR.SchemaIsProper();
    hide MR.FieldOf, MR.KeyOf, PlainKey;
    forall k | 0 < k < 13 ensures MR.SCHEMA.fields[k] != MR.Branch {
      assert MR.SCHEMA.fields[0] != MR.SCHEMA.fields[k];
    }
  }
}
