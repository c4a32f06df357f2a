/** The daily digest of session costs: entries move from a log file into a digest bead. */
module CostDigest {
  import opened Text
  import opened Lines

  /** A log entry; money is counted in whole units, and the day is that of its end. */
  datatype Entry = Entry(sessionId: string, role: string, rig: string, cost: int, day: string)

  /** What a line of the log says, if it can be parsed. */
  type Decoder = string -> Option<Entry>

  datatype Digest = Digest(day: string, total: int, count: nat, sessions: seq<Entry>, byRole: map<string, int>, byRig: map<string, int>)

  // ----- reading the log -----

  function EntryOf(decode: Decoder): string -> seq<Entry> {
    line => if TrimSpace(line) == "" then []
            else match decode(TrimSpace(line)) case None => [] case Some(e) => [e]
  }

  /** All entries of a log, in order. */
  function EntriesIn(decode: Decoder, log: string): seq<Entry> {
    Collect(Split(log, '\n'), EntryOf(decode))
  }

  function OfDay(entries: seq<Entry>, day: string): seq<Entry> {
    if entries == [] then []
    else OfDay(entries[..|entries| - 1], day) + if entries[|entries| - 1].day == day then [entries[|entries| - 1]] else []
  }

  function NotOfDay(entries: seq<Entry>, day: string): seq<Entry> {
    if entries == [] then []
    else NotOfDay(entries[..|entries| - 1], day) + if entries[|entries| - 1].day == day then [] else [entries[|entries| - 1]]
  }

  predicate IsOfDay(decode: Decoder, line: string, day: string) {
    decode(line).Some? && decode(line).value.day == day
  }

  /** The line, trimmed, unless it is blank or an entry of the day. */
  function KeptLine(decode: Decoder, day: string): string -> seq<string> {
    line => if TrimSpace(line) == "" || IsOfDay(decode, TrimSpace(line), day) then [] else [TrimSpace(line)]
  }

  function KeptLines(decode: Decoder, log: string, day: string): seq<string> {
    Collect(Split(log, '\n'), KeptLine(decode, day))
  }

  /** The log without the entries of a day. */
  function Rewritten(decode: Decoder, log: string, day: string): string {
    var kept := KeptLines(decode, log, day);
    if OfDay(EntriesIn(decode, log), day) == [] then log
    else if kept == [] then "" else Join(kept, '\n') + "\n"
  }

  // ----- totals -----

  function Total(entries: seq<Entry>): int {
    if entries == [] then 0 else Total(entries[..|entries| - 1]) + entries[|entries| - 1].cost
  }

  function TotalOfRole(entries: seq<Entry>, role: string): int {
    if entries == [] then 0
    else TotalOfRole(entries[..|entries| - 1], role) +
         if entries[|entries| - 1].role == role then entries[|entries| - 1].cost else 0
  }

  function TotalOfRig(entries: seq<Entry>, rig: string): int {
    if entries == [] then 0
    else TotalOfRig(entries[..|entries| - 1], rig) +
         if entries[|entries| - 1].rig == rig then entries[|entries| - 1].cost else 0
  }

  function RolesOf(entries: seq<Entry>): set<string> {
    set e | e in entries :: e.role
  }

  ghost predicate RoleTotals(byRole: map<string, int>, entries: seq<Entry>) {
    && (forall r :: r in byRole <==> r in RolesOf(entries))
    && forall r | r in byRole :: byRole[r] == TotalOfRole(entries, r)
  }

  function RigsOf(entries: seq<Entry>): set<string> {
    set e | e in entries && e.rig != "" :: e.rig
  }

  ghost predicate RigTotals(byRig: map<string, int>, entries: seq<Entry>) {
    && (forall g :: g in byRig <==> g in RigsOf(entries))
    && forall g | g in byRig :: byRig[g] == TotalOfRig(entries, g)
  }

  /** The digest of a day's entries. */
  ghost predicate Summarizes(d: Digest, day: string, entries: seq<Entry>) {
    && d.day == day && d.sessions == entries && d.count == |entries| && d.total == Total(entries)
    && RoleTotals(d.byRole, entries) && RigTotals(d.byRig, entries)
  }

  /** The sum over a set of roles, taken in any order. */
  ghost function SumOver(entries: seq<Entry>, roles: set<string>): int {
    if roles == {} then 0
    else
      var r :| r in roles;
      TotalOfRole(entries, r) + SumOver(entries, roles - {r})
  }

  lemma {:induction false} SumOverTake(entries: seq<Entry>, roles: set<string>, r: string)
    requires r in roles
    ensures SumOver(entries, roles) == TotalOfRole(entries, r) + SumOver(entries, roles - {r})
  {
    var q :| q in roles && SumOver(entries, roles) == TotalOfRole(entries, q) + SumOver(entries, roles - {q});
    if q != r {
      SumOverTake(entries, roles - {q}, r);
      SumOverTake(entries, roles - {r}, q);
      assert roles - {q} - {r} == roles - {r} - {q};
    }
  }

  lemma {:induction false} SumOverNext(entries: seq<Entry>, e: Entry, roles: set<string>)
    ensures SumOver(entries + [e], roles) == SumOver(entries, roles) + if e.role in roles then e.cost else 0
  {
    assert (entries + [e])[..|entries|] == entries;
    if roles != {} {
      var r :| r in roles;
      SumOverNext(entries, e, roles - {r});
      SumOverTake(entries, roles, r);
      SumOverTake(entries + [e], roles, r);
    }
  }

  lemma {:induction false} SumOverNothing(roles: set<string>)
    ensures SumOver([], roles) == 0
  {
    if roles != {} {
      var r :| r in roles;
      SumOverTake([], roles, r);
      SumOverNothing(roles - {r});
    }
  }

  /** The totals by role add up to the total. */
  lemma {:induction false} RolesAddUp(entries: seq<Entry>, roles: set<string>)
    requires RolesOf(entries) <= roles
    ensures SumOver(entries, roles) == Total(entries)
  {
    if entries == [] {
      SumOverNothing(roles);
    } else {
      var n := |entries| - 1;
      assert entries == entries[..n] + [entries[n]];
      assert RolesOf(entries[..n]) <= RolesOf(entries) && entries[n].role in RolesOf(entries);
      RolesAddUp(entries[..n], roles);
      SumOverNext(entries[..n], entries[n], roles);
    }
  }

  /** What one more entry adds to the totals, and that they start from nothing. */
  lemma TotalsNext(entries: seq<Entry>, e: Entry, role: string, rig: string)
    ensures Total([]) == 0 && TotalOfRole([], role) == 0 && TotalOfRig([], rig) == 0
    ensures Total(entries + [e]) == Total(entries) + e.cost
    ensures TotalOfRole(entries + [e], role) == TotalOfRole(entries, role) + if e.role == role then e.cost else 0
    ensures TotalOfRig(entries + [e], rig) == TotalOfRig(entries, rig) + if e.rig == rig then e.cost else 0
    ensures role in RolesOf(entries + [e]) <==> role in RolesOf(entries) || role == e.role
    ensures rig in RigsOf(entries + [e]) <==> rig in RigsOf(entries) || (rig == e.rig && rig != "")
  {
    assert (entries + [e])[..|entries|] == entries;
    assert forall x :: x in entries + [e] <==> x in entries || x == e;
  }

  // ----- the log before and after -----

  lemma {:induction false} DaySplits(entries: seq<Entry>, day: string)
    ensures multiset(OfDay(entries, day)) + multiset(NotOfDay(entries, day)) == multiset(entries)
    ensures (forall e | e in OfDay(entries, day) :: e.day == day) && (forall e | e in NotOfDay(entries, day) :: e.day != day)
  {
    if entries != [] {
      var n := |entries| - 1;
      DaySplits(entries[..n], day);
      assert entries == entries[..n] + [entries[n]];
    }
  }

  lemma {:induction false} DayAppend(a: seq<Entry>, b: seq<Entry>, day: string)
    ensures OfDay(a + b, day) == OfDay(a, day) + OfDay(b, day) && NotOfDay(a + b, day) == NotOfDay(a, day) + NotOfDay(b, day)
  {
    if b == [] {
      assert a + b == a;
    } else {
      var n := |b| - 1;
      assert (a + b)[..|a + b| - 1] == a + b[..n];
      DayAppend(a, b[..n], day);
    }
  }

  lemma TrimTwice(line: string)
    ensures TrimSpace(TrimSpace(line)) == TrimSpace(line)
  {
    TrimSpaceTrims(line);
    TrimSpaceTrims(TrimSpace(line));
  }

  /** A kept line says what the line said, and is itself kept; a line that is not kept said
      nothing or something of the day. */
  lemma KeptLineSays(decode: Decoder, day: string, line: string)
    ensures Collect(KeptLine(decode, day)(line), EntryOf(decode)) == NotOfDay(EntryOf(decode)(line), day)
    ensures Collect(KeptLine(decode, day)(line), KeptLine(decode, day)) == KeptLine(decode, day)(line)
  {
    TrimTwice(line);
    hide TrimSpace;
    var t := TrimSpace(line);
    assert [t][..0] == [];
    assert forall e: Entry :: [e][..0] == [];
  }

  lemma {:induction false} KeptLinesSay(decode: Decoder, day: string, lines: seq<string>)
    ensures Collect(Collect(lines, KeptLine(decode, day)), EntryOf(decode)) == NotOfDay(Collect(lines, EntryOf(decode)), day)
    ensures Collect(Collect(lines, KeptLine(decode, day)), KeptLine(decode, day)) == Collect(lines, KeptLine(decode, day))
  {
    hide EntryOf, KeptLine;
    if lines != [] {
      var n := |lines| - 1;
      KeptLinesSay(decode, day, lines[..n]);
      KeptLineSays(decode, day, lines[n]);
      CollectAppend(Collect(lines[..n], KeptLine(decode, day)), KeptLine(decode, day)(lines[n]), EntryOf(decode));
      CollectAppend(Collect(lines[..n], KeptLine(decode, day)), KeptLine(decode, day)(lines[n]), KeptLine(decode, day));
      DayAppend(Collect(lines[..n], EntryOf(decode)), EntryOf(decode)(lines[n]), day);
    }
  }

  lemma DayNext(entries: seq<Entry>, e: Entry, day: string)
    ensures OfDay(entries + [e], day) == OfDay(entries, day) + (if e.day == day then [e] else [])
    ensures NotOfDay(entries + [e], day) == NotOfDay(entries, day) + (if e.day == day then [] else [e])
  {
    assert (entries + [e])[..|entries|] == entries;
  }

  lemma {:induction false} NothingOfDay(entries: seq<Entry>, day: string)
    ensures OfDay(entries, day) == [] ==> NotOfDay(entries, day) == entries
  {
    if entries != [] {
      hide *;
      var n := |entries| - 1;
      var front, last := entries[..n], entries[n];
      assert entries == front + [last];
      NothingOfDay(front, day);
      DayNext(front, last, day);
    }
  }

  lemma {:induction false} KeptLinesFree(decode: Decoder, day: string, lines: seq<string>)
    requires AllFree(lines, '\n')
    ensures AllFree(Collect(lines, KeptLine(decode, day)), '\n')
  {
    if lines != [] {
      var n := |lines| - 1;
      KeptLinesFree(decode, day, lines[..n]);
      assert lines[n] in lines;
      TrimSpaceTrims(lines[n]);
      hide TrimSpace;
    }
  }

  lemma KeptTextSplits(kept: seq<string>)
    requires AllFree(kept, '\n') && kept != []
    ensures Split(Join(kept, '\n') + "\n", '\n') == kept + [""]
  {
    SplitJoin(kept, '\n');
    SplitAppend(Join(kept, '\n'), "", '\n');
    SplitFree("", '\n');
    hide Split, Join;
    assert Join(kept, '\n') + ['\n'] + "" == Join(kept, '\n') + "\n";
  }

  lemma EmptyLine(decode: Decoder, day: string)
    ensures Collect([""], EntryOf(decode)) == [] && Collect([""], KeptLine(decode, day)) == []
    ensures EntriesIn(decode, "") == [] && KeptLines(decode, "", day) == []
  {
    assert [""][..0] == [] && TrimSpace("") == "";
    SplitFree("", '\n');
  }

  /** Rewriting removes exactly the entries of the day and keeps the rest in order, lines that
      cannot be parsed included. */
  lemma RewrittenKeeps(decode: Decoder, log: string, day: string)
    ensures EntriesIn(decode, Rewritten(decode, log, day)) == NotOfDay(EntriesIn(decode, log), day)
    ensures KeptLines(decode, Rewritten(decode, log, day), day) == KeptLines(decode, log, day)
  {
    var lines, kept := Split(log, '\n'), KeptLines(decode, log, day);
    SplitPartsFree(log, '\n');
    KeptLinesFree(decode, day, lines);
    KeptLinesSay(decode, day, lines);
    EmptyLine(decode, day);
    hide Split, Join, EntryOf, KeptLine, OfDay, NotOfDay;
    if OfDay(EntriesIn(decode, log), day) == [] {
      NothingOfDay(EntriesIn(decode, log), day);
    } else if kept != [] {
      KeptTextSplits(kept);
      CollectAppend(kept, [""], EntryOf(decode));
      CollectAppend(kept, [""], KeptLine(decode, day));
    }
  }

  /** A line that is neither blank nor an entry. */
  function Unreadable(decode: Decoder): string -> seq<string> {
    line => if TrimSpace(line) == "" || decode(TrimSpace(line)).Some? then [] else [TrimSpace(line)]
  }

  lemma KeptLineUnreadable(decode: Decoder, day: string, line: string)
    ensures Collect(KeptLine(decode, day)(line), Unreadable(decode)) == Unreadable(decode)(line)
  {
    TrimTwice(line);
    hide TrimSpace;
    var t := TrimSpace(line);
    assert [t][..0] == [];
  }

  lemma {:induction false} KeptLinesUnreadable(decode: Decoder, day: string, lines: seq<string>)
    ensures Collect(Collect(lines, KeptLine(decode, day)), Unreadable(decode)) == Collect(lines, Unreadable(decode))
  {
    hide Unreadable, KeptLine;
    if lines != [] {
      var n := |lines| - 1;
      KeptLinesUnreadable(decode, day, lines[..n]);
      KeptLineUnreadable(decode, day, lines[n]);
      CollectAppend(Collect(lines[..n], KeptLine(decode, day)), KeptLine(decode, day)(lines[n]), Unreadable(decode));
    }
  }

  lemma EmptyIsReadable(decode: Decoder)
    ensures Collect([""], Unreadable(decode)) == [] && Collect(Split("", '\n'), Unreadable(decode)) == []
  {
    assert [""][..0] == [] && TrimSpace("") == "";
    SplitFree("", '\n');
  }

  /** Lines that cannot be parsed survive the rewriting, all of them and in order. */
  lemma UnreadableKept(decode: Decoder, log: string, day: string)
    ensures Collect(Split(Rewritten(decode, log, day), '\n'), Unreadable(decode)) == Collect(Split(log, '\n'), Unreadable(decode))
  {
    var lines, kept := Split(log, '\n'), KeptLines(decode, log, day);
    SplitPartsFree(log, '\n');
    KeptLinesFree(decode, day, lines);
    KeptLinesUnreadable(decode, day, lines);
    EmptyIsReadable(decode);
    hide Split, Join, Unreadable, KeptLine, OfDay, EntriesIn;
    if OfDay(EntriesIn(decode, log), day) != [] && kept != [] {
      KeptTextSplits(kept);
      CollectAppend(kept, [""], Unreadable(decode));
    }
  }

  lemma LineIsEntry(decode: Decoder, line: string, e: Entry)
    requires TrimSpace(line) != "" && decode(TrimSpace(line)) == Some(e) && Free(line, '\n')
    ensures EntriesIn(decode, line) == [e]
  {
    SplitFree(line, '\n');
    hide TrimSpace, Split;
    var one := [line];
    assert one[..0] == [];
    assert Collect(one, EntryOf(decode)) == EntryOf(decode)(line);
  }

  /** A line that can be parsed is one entry, in its place. */
  lemma EntryInPlace(decode: Decoder, before: string, line: string, after: string, e: Entry)
    requires TrimSpace(line) != "" && decode(TrimSpace(line)) == Some(e) && Free(line, '\n')
    ensures EntriesIn(decode, before + ['\n'] + line + ['\n'] + after) ==
            EntriesIn(decode, before) + [e] + EntriesIn(decode, after)
  {
    LineIsEntry(decode, line, e);
    hide TrimSpace, EntryOf, Split;
    assert before + ['\n'] + line + ['\n'] + after == before + ['\n'] + (line + ['\n'] + after);
    LineEnd(decode, before, line + ['\n'] + after);
    LineEnd(decode, line, after);
  }

  lemma LineEnd(decode: Decoder, body: string, more: string)
    ensures EntriesIn(decode, body + ['\n'] + more) == Collect(Split(body, '\n'), EntryOf(decode)) + EntriesIn(decode, more)
  {
    hide Split, EntryOf;
    SplitAppend(body, more, '\n');
    CollectAppend(Split(body, '\n'), Split(more, '\n'), EntryOf(decode));
  }

  /** Text appended after a whole line adds its own entries. */
  lemma EntriesAppend(decode: Decoder, log: string, more: string)
    requires log == "" || log[|log| - 1] == '\n'
    ensures EntriesIn(decode, log + more) == EntriesIn(decode, log) + EntriesIn(decode, more)
  {
    hide *;
    EmptyLine(decode, "");
    if log == "" {
      assert log + more == more;
    } else {
      var body := log[..|log| - 1];
      assert log == body + ['\n'] + "" && log + more == body + ['\n'] + more;
      LineEnd(decode, body, more);
      LineEnd(decode, body, "");
    }
  }

  // ----- conservation -----

  /** The log file and the sessions of all digests so far. */
  datatype Disk = Disk(log: string, digested: seq<Entry>)

  /** How often each entry is on disk. */
  function Holdings(decode: Decoder, disk: Disk): multiset<Entry> {
    multiset(EntriesIn(decode, disk.log)) + multiset(disk.digested)
  }

  /** The points of a digest run at which it may stop: before it, with the digest made, while
      the log is rewritten (it was truncated and `written` characters are back), and after it. */
  datatype Moment = Before | Digested | Rewriting(written: nat) | After

  function At(decode: Decoder, disk: Disk, day: string, m: Moment): Disk {
    var sessions := OfDay(EntriesIn(decode, disk.log), day);
    var next := Rewritten(decode, disk.log, day);
    if sessions == [] || m.Before? then disk
    else
      match m
      case Digested => Disk(disk.log, disk.digested + sessions)
      case Rewriting(written) =>
        Disk(next[..if written <= |next| then written else |next|], disk.digested + sessions)
      case _ => Disk(next, disk.digested + sessions)
  }

  lemma AtMoments(decode: Decoder, disk: Disk, day: string)
    ensures var sessions := OfDay(EntriesIn(decode, disk.log), day);
            At(decode, disk, day, Before) == disk &&
            At(decode, disk, day, Digested) == Disk(disk.log, disk.digested + sessions) &&
            At(decode, disk, day, After) ==
            if sessions == [] then disk else Disk(Rewritten(decode, disk.log, day), disk.digested + sessions)
  {
    hide EntriesIn, OfDay, Rewritten;
  }

  /** A complete run neither loses nor duplicates an entry. */
  lemma DigestConserves(decode: Decoder, disk: Disk, day: string)
    ensures Holdings(decode, At(decode, disk, day, After)) == Holdings(decode, disk)
  {
    var entries := EntriesIn(decode, disk.log);
    var sessions, others := OfDay(entries, day), NotOfDay(entries, day);
    RewrittenKeeps(decode, disk.log, day);
    DaySplits(entries, day);
    AtMoments(decode, disk, day);
    hide EntriesIn, Rewritten, OfDay, NotOfDay, At;
    MovedAcross(sessions, others, disk.digested);
  }

  lemma MovedAcross(sessions: seq<Entry>, others: seq<Entry>, digested: seq<Entry>)
    ensures multiset(others) + multiset(digested + sessions) == multiset(sessions) + multiset(others) + multiset(digested)
  {}

  /** A run that stops before the rewriting has every entry somewhere, and has the entries of
      the day twice if the digest was made: a second run digests them again. */
  lemma SecondRunCountsTwice(decode: Decoder, disk: Disk, day: string)
    ensures var crashed := At(decode, disk, day, Digested);
            Holdings(decode, disk) <= Holdings(decode, crashed) &&
            Holdings(decode, At(decode, crashed, day, After)) ==
            Holdings(decode, disk) + multiset(OfDay(EntriesIn(decode, disk.log), day))
  {
    var crashed := At(decode, disk, day, Digested);
    DigestConserves(decode, crashed, day);
    hide EntriesIn, Rewritten, OfDay;
  }

  /** Every entry of the log is somewhere, whenever the run stops. */
  ghost predicate SafeAlways(decode: Decoder, disk: Disk, day: string) {
    forall m: Moment, e | e in EntriesIn(decode, disk.log) :: e in Holdings(decode, At(decode, disk, day, m))
  }

  lemma InHoldings(decode: Decoder, disk: Disk, e: Entry)
    ensures e in Holdings(decode, disk) <==> e in EntriesIn(decode, disk.log) || e in disk.digested
  {
    hide EntriesIn;
  }

  lemma DayOrOther(entries: seq<Entry>, day: string, e: Entry)
    ensures e in entries <==> e in OfDay(entries, day) || e in NotOfDay(entries, day)
  {
    DaySplits(entries, day);
    assert e in entries <==> e in multiset(entries);
    hide OfDay, NotOfDay;
  }

  lemma DigestedAt(decode: Decoder, disk: Disk, day: string, m: Moment)
    ensures var sessions := OfDay(EntriesIn(decode, disk.log), day);
            if sessions == [] || m.Before? then At(decode, disk, day, m) == disk
            else At(decode, disk, day, m).digested == disk.digested + sessions
    ensures m == Rewriting(0) && OfDay(EntriesIn(decode, disk.log), day) != [] ==> At(decode, disk, day, m).log == ""
  {
    hide EntriesIn, Rewritten, OfDay;
  }

  /** The file is rewritten in place, so a run can stop with entries of other days gone: at
      every moment every entry is somewhere exactly when all entries of other days, if there
      is anything to digest at all, are in earlier digests. */
  lemma SafeAtEveryMomentIff(decode: Decoder, disk: Disk, day: string)
    ensures SafeAlways(decode, disk, day) <==>
            OfDay(EntriesIn(decode, disk.log), day) == [] ||
            forall e | e in NotOfDay(EntriesIn(decode, disk.log), day) :: e in disk.digested
  {
    var entries := EntriesIn(decode, disk.log);
    var sessions, others := OfDay(entries, day), NotOfDay(entries, day);
    EmptyLine(decode, day);
    hide EntriesIn, OfDay, NotOfDay, Holdings, At;
    if SafeAlways(decode, disk, day) && sessions != [] {
      var m := Rewriting(0);
      DigestedAt(decode, disk, day, m);
      forall e | e in others ensures e in disk.digested {
        DayOrOther(entries, day, e);
        assert e in Holdings(decode, At(decode, disk, day, m));
        InHoldings(decode, At(decode, disk, day, m), e);
        OtherDay(entries, day, e);
      }
    }
    if sessions == [] || forall e | e in others :: e in disk.digested {
      forall m: Moment, e | e in entries ensures e in Holdings(decode, At(decode, disk, day, m)) {
        DayOrOther(entries, day, e);
        DigestedAt(decode, disk, day, m);
        InHoldings(decode, At(decode, disk, day, m), e);
      }
    }
  }

  lemma OtherDay(entries: seq<Entry>, day: string, e: Entry)
    ensures e in NotOfDay(entries, day) ==> e !in OfDay(entries, day)
  {
    DaySplits(entries, day);
  }

  // ----- other sessions ending meanwhile -----

  predicate WholeLines(text: string) {
    text == "" || text[|text| - 1] == '\n'
  }

  /** The same moments when others append: `late` after the run has read the log for the
      digest, `later` after it has read the log again to rewrite it. A rewriting replaces
      whatever is there; without one, all that was appended stays. */
  function During(decode: Decoder, disk: Disk, day: string, late: string, later: string, m: Moment): Disk {
    var sessions := OfDay(EntriesIn(decode, disk.log), day);
    var reread := disk.log + late;
    var next := Rewritten(decode, reread, day);
    var digested := disk.digested + if m.Before? then [] else sessions;
    if sessions == [] || m.Before? || m.Digested? || OfDay(EntriesIn(decode, reread), day) == [] then
      Disk(reread + later, digested)
    else if m.After? then Disk(next, digested)
    else Disk(next[..if m.written <= |next| then m.written else |next|], digested)
  }

  /** Nobody appending, these are the moments of `At`. */
  lemma DuringAlone(decode: Decoder, disk: Disk, day: string, m: Moment)
    ensures During(decode, disk, day, "", "", m) == At(decode, disk, day, m)
  {
    assert disk.log + "" == disk.log && disk.digested + [] == disk.digested;
    hide EntriesIn, OfDay, Rewritten;
  }

  lemma AppendsInTheEnd(decode: Decoder, disk: Disk, day: string, late: string, later: string)
    requires WholeLines(disk.log) && WholeLines(late)
    ensures var left := During(decode, disk, day, late, later, After);
            var entries, added, more := EntriesIn(decode, disk.log), EntriesIn(decode, late), EntriesIn(decode, later);
            left.digested == disk.digested + OfDay(entries, day) &&
            EntriesIn(decode, left.log) ==
            if OfDay(entries, day) == [] then entries + added + more else NotOfDay(entries, day) + NotOfDay(added, day)
  {
    var entries, added := EntriesIn(decode, disk.log), EntriesIn(decode, late);
    EntriesAppend(decode, disk.log, late);
    EntriesAppend(decode, disk.log + late, later);
    DayAppend(entries, added, day);
    RewrittenKeeps(decode, disk.log + late, day);
    LeftInTheEnd(decode, disk, day, late, later);
    hide *;
    DayOfBoth(entries, added, day);
  }

  lemma DayOfBoth(entries: seq<Entry>, added: seq<Entry>, day: string)
    ensures OfDay(entries, day) != [] ==> OfDay(entries + added, day) != []
  {
    DayAppend(entries, added, day);
    hide OfDay;
  }

  lemma LeftInTheEnd(decode: Decoder, disk: Disk, day: string, late: string, later: string)
    ensures var left := During(decode, disk, day, late, later, After);
            var sessions := OfDay(EntriesIn(decode, disk.log), day);
            left.digested == disk.digested + sessions &&
            left.log == if sessions == [] || OfDay(EntriesIn(decode, disk.log + late), day) == [] then disk.log + late + later
                        else Rewritten(decode, disk.log + late, day)
  {
    hide EntriesIn, OfDay, Rewritten;
  }

  /** A run that digests something loses exactly the entries of the day that came late and all
      entries that came later. So nothing is lost exactly when it finds nothing to digest, or
      there are no such entries. */
  lemma ConcurrentAppendsIff(decode: Decoder, disk: Disk, day: string, late: string, later: string)
    requires WholeLines(disk.log) && WholeLines(late)
    ensures OfDay(EntriesIn(decode, disk.log), day) != [] ==>
              Holdings(decode, During(decode, disk, day, late, later, After)) +
              multiset(OfDay(EntriesIn(decode, late), day)) + multiset(EntriesIn(decode, later)) ==
              Holdings(decode, disk) + multiset(EntriesIn(decode, late)) + multiset(EntriesIn(decode, later))
    ensures Holdings(decode, During(decode, disk, day, late, later, After)) ==
            Holdings(decode, disk) + multiset(EntriesIn(decode, late)) + multiset(EntriesIn(decode, later)) <==>
            OfDay(EntriesIn(decode, disk.log), day) == [] ||
            (OfDay(EntriesIn(decode, late), day) == [] && EntriesIn(decode, later) == [])
  {
    var entries, added, more := EntriesIn(decode, disk.log), EntriesIn(decode, late), EntriesIn(decode, later);
    var s, o, ad, ao := OfDay(entries, day), NotOfDay(entries, day), OfDay(added, day), NotOfDay(added, day);
    hide EntriesIn, OfDay, NotOfDay, During;
    AppendsInTheEnd(decode, disk, day, late, later);
    DaySplits(entries, day);
    DaySplits(added, day);
    var left := During(decode, disk, day, late, later, After);
    assert Holdings(decode, disk) == multiset(entries) + multiset(disk.digested);
    assert Holdings(decode, left) == multiset(EntriesIn(decode, left.log)) + multiset(left.digested);
    hide *;
    if s == [] {
      AllThere(entries, added, more);
    } else {
      LostIff(s, o, ad, ao, disk.digested, more);
    }
  }

  lemma AllThere(a: seq<Entry>, b: seq<Entry>, c: seq<Entry>)
    ensures multiset(a + b + c) == multiset(a) + multiset(b) + multiset(c)
  {}

  lemma LostIff(s: seq<Entry>, o: seq<Entry>, ad: seq<Entry>, ao: seq<Entry>, digested: seq<Entry>, more: seq<Entry>)
    ensures multiset(o + ao) + multiset(digested + s) ==
            (multiset(s) + multiset(o)) + multiset(digested) + (multiset(ad) + multiset(ao)) + multiset(more) <==>
            ad == [] && more == []
    ensures multiset(o + ao) + multiset(digested + s) + multiset(ad) + multiset(more) ==
            (multiset(s) + multiset(o)) + multiset(digested) + (multiset(ad) + multiset(ao)) + multiset(more)
  {
    Regroup(s, o, ad, ao, digested, more);
    NothingAdded(multiset(o + ao) + multiset(digested + s), ad, more);
  }

  lemma Regroup(s: seq<Entry>, o: seq<Entry>, ad: seq<Entry>, ao: seq<Entry>, digested: seq<Entry>, more: seq<Entry>)
    ensures multiset(o + ao) + multiset(digested + s) + multiset(ad) + multiset(more) ==
            (multiset(s) + multiset(o)) + multiset(digested) + (multiset(ad) + multiset(ao)) + multiset(more)
  {}

  lemma NothingAdded(before: multiset<Entry>, a: seq<Entry>, b: seq<Entry>)
    ensures before == before + multiset(a) + multiset(b) <==> a == [] && b == []
  {
    var after := before + multiset(a) + multiset(b);
    assert a != [] ==> a[0] in multiset(a) && before[a[0]] < after[a[0]];
    assert b != [] ==> b[0] in multiset(b) && before[b[0]] < after[b[0]];
  }
}
