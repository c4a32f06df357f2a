/** The program that makes the daily digest. */
module CostLog {
  import opened Text
  import opened Lines
  import opened CostDigest

  lemma LineOfDay(decode: Decoder, lines: seq<string>, i: nat, day: string)
    requires i < |lines|
    ensures var before, line := Collect(lines[..i], EntryOf(decode)), TrimSpace(lines[i]);
            OfDay(Collect(lines[..i + 1], EntryOf(decode)), day) ==
            OfDay(before, day) + if line != "" && IsOfDay(decode, line, day) then [decode(line).value] else []
    ensures var line := TrimSpace(lines[i]);
            Collect(lines[..i + 1], KeptLine(decode, day)) ==
            Collect(lines[..i], KeptLine(decode, day)) + if line == "" || IsOfDay(decode, line, day) then [] else [line]
  {
    CollectNext(lines, i, EntryOf(decode));
    CollectNext(lines, i, KeptLine(decode, day));
    var e := EntryOf(decode)(lines[i]);
    DayAppend(Collect(lines[..i], EntryOf(decode)), e, day);
    hide TrimSpace, Collect;
    assert forall x: Entry :: [x][..0] == [];
  }

  class Costs {
    const decode: Decoder
    const reliable: bool  // files and commands always work
    var log: Option<string>  // None: there is no log file
    var digests: seq<Digest>

    constructor (decode: Decoder, reliable: bool)
      ensures this.decode == decode && this.reliable == reliable && log == None && digests == []
    {
      this.decode, this.reliable, log, digests := decode, reliable, None, [];
    }

    /** Other sessions record their costs. */
    method Append(lines: string)
      modifies this`log
      ensures log.GetOr("") == old(log).GetOr("") + lines
      ensures lines == "" ==> log == old(log)
    {
      if lines != "" {
        log := Some(log.GetOr("") + lines);
      }
    }

    /** `querySessionCostEntries`: a log that is there may be unreadable. */
    method QuerySessionCostEntries(day: string) returns (entries: seq<Entry>, ok: bool)
      ensures ok ==> entries == OfDay(EntriesIn(decode, log.GetOr("")), day)
      ensures log.None? || reliable ==> ok
    {
      EmptyLine(decode, day);
      entries, ok := [], true;
      if log.None? {
        return;
      }
      ok := *;
      ok := ok || reliable;
      if !ok {
        return;
      }
      hide EntryOf, TrimSpace;
      var lines := Split(log.value, '\n');
      for i := 0 to |lines|
        invariant entries == OfDay(Collect(lines[..i], EntryOf(decode)), day)
      {
        LineOfDay(decode, lines, i, day);
        var line := TrimSpace(lines[i]);
        if line == "" {
          continue;
        }
        var logEntry := decode(line);
        if logEntry.None? {
          continue;
        }
        if logEntry.value.day != day {
          continue;
        }
        entries := entries + [logEntry.value];
      }
      assert lines[..|lines|] == lines;
    }

    /** The filter loop of `deleteSessionCostEntries`. */
    method Sift(data: string, day: string) returns (keepLines: seq<string>, deletedCount: nat)
      ensures keepLines == KeptLines(decode, data, day) && deletedCount == |OfDay(EntriesIn(decode, data), day)|
    {
      hide EntryOf, KeptLine, TrimSpace, OfDay, Split, Collect;
      NoLines(decode, day);
      keepLines, deletedCount := [], 0;
      var lines := Split(data, '\n');
      assert lines[..0] == [];
      for i := 0 to |lines|
        invariant keepLines == Collect(lines[..i], KeptLine(decode, day))
        invariant deletedCount == |OfDay(Collect(lines[..i], EntryOf(decode)), day)|
      {
        LineOfDay(decode, lines, i, day);
        var line := TrimSpace(lines[i]);
        if line == "" {
          continue;
        }
        var logEntry := decode(line);
        if logEntry.None? {
          keepLines := keepLines + [line];
          continue;
        }
        if logEntry.value.day == day {
          deletedCount := deletedCount + 1;
          continue;
        }
        keepLines := keepLines + [line];
      }
      assert lines[..|lines|] == lines;
    }

    /** `deleteSessionCostEntries`, others appending `later` once it has read the log. It may
        fail to read or open the log; a failing rewrite leaves some beginning of the new content. */
    method DeleteSessionCostEntries(day: string, later: string) returns (deletedCount: nat, ok: bool)
      modifies this`log
      ensures var was := old(log).GetOr("");
              var mine := OfDay(EntriesIn(decode, was), day);
              && (reliable ==> ok) && (ok ==> deletedCount == |mine|) && (!ok ==> deletedCount == 0 && old(log).Some?)
              && (ok ==> log.GetOr("") == if mine == [] then was + later else Rewritten(decode, was, day))
              && (!ok ==> log.GetOr("") == was + later ||
                          (mine != [] && log.GetOr("") <= Rewritten(decode, was, day)))
    {
      EmptyLine(decode, day);
      var data := log;
      Append(later);
      if data.None? {
        return 0, true;
      }
      var readable: bool := *;
      if !readable && !reliable {
        return 0, false;
      }
      var keepLines: seq<string>;
      keepLines, deletedCount := Sift(data.value, day);
      hide OfDay, Rewritten, Join, EntriesIn, KeptLines;
      if deletedCount == 0 {
        return 0, true;
      }
      NewContent(decode, data.value, day);
      var newContent := Join(keepLines, '\n');
      if |keepLines| > 0 {
        newContent := newContent + "\n";
      }
      ok := *;
      ok := ok || reliable;
      if ok {
        log := Some(newContent);
        return;
      }
      deletedCount := 0;
      var truncated: bool := *;
      if truncated {
        var written: nat :| written <= |newContent|;
        log := Some(newContent[..written]);
      }
    }

    /** The loop of `runCostsDigest` that adds up a day. */
    method Summarize(day: string, entries: seq<Entry>) returns (digest: Digest)
      ensures Summarizes(digest, day, entries)
    {
      var total, count := 0, 0;
      var byRole: map<string, int> := map[];
      var byRig: map<string, int> := map[];
      assert entries[..0] == [];
      for i := 0 to |entries|
        invariant Summarizes(Digest(day, total, count, entries[..i], byRole, byRig), day, entries[..i])
      {
        var e := entries[i];
        var role := (if e.role in byRole then byRole[e.role] else 0) + e.cost;
        var rig := (if e.rig in byRig then byRig[e.rig] else 0) + e.cost;
        NextRole(byRole, entries[..i], e);
        NextRig(byRig, entries[..i], e);
        NextTotal(entries[..i], e);
        assert entries[..i + 1] == entries[..i] + [e];
        total, count := total + e.cost, count + 1;
        hide RoleTotals, RigTotals, Total;
        byRole := byRole[e.role := role];
        if e.rig != "" {
          byRig := byRig[e.rig := rig];
        }
      }
      assert entries[..|entries|] == entries;
      digest := Digest(day, total, count, entries, byRole, byRig);
    }

    /** What is on disk. */
    function OnDisk(): Disk
      reads this
    {
      Disk(log.GetOr(""), SessionsOf(digests))
    }

    /** `runCostsDigest` for a given day, others appending `late` once it has read the log and
        `later` once it has read it again: it stops at one of the moments of a digest, the last
        one unless a command fails (creating the digest may fail after it was made), and the
        digest it makes summarizes the entries of the day. */
    method RunCostsDigest(day: string, late: string, later: string) returns (failed: bool, ghost stopped: Moment)
      modifies this
      ensures OnDisk() == During(decode, old(OnDisk()), day, late, later, stopped)
      ensures late == "" && later == "" ==> OnDisk() == At(decode, old(OnDisk()), day, stopped)
      ensures failed ==> stopped == Before || stopped == Digested
      ensures !failed ==> stopped != Before
      ensures reliable ==> !failed && stopped == After
      ensures old(digests) <= digests && |digests| <= |old(digests)| + 1
      ensures |digests| > |old(digests)| ==>
                Summarizes(digests[|old(digests)|], day, OfDay(EntriesIn(decode, old(log).GetOr("")), day))
    {
      NoLogNoEntries(decode, day);
      hide EntriesIn, OfDay, Rewritten, Summarizes, During, At, SessionsOf;
      ghost var disk := OnDisk();
      stopped := After;
      var entries, ok := QuerySessionCostEntries(day);
      Append(late);
      Moments(decode, disk, day, late, later);
      if !ok {
        Append(later);
        return true, Before;
      }
      if |entries| == 0 {
        Append(later);
        return false, After;
      }
      var digest := Summarize(day, entries);
      assert digest.sessions == entries by { SessionsSummarized(digest, day, entries); }
      var made: bool := *;
      if !made && !reliable {
        Append(later);
        return true, Before;
      }
      OneMoreDigest(digests, digest);
      digests := digests + [digest];
      failed := *;
      failed := failed && !reliable;
      if failed {
        Append(later);
        return true, Digested;
      }
      var _, rewritten := DeleteSessionCostEntries(day, later);
      if !rewritten {
        stopped := Digested;
        if log.GetOr("") != disk.log + late + later {
          stopped := Rewriting(|log.GetOr("")|);
          AtRewriting(decode, disk, day, late, later, log.GetOr(""));
        }
      }
      DuringAlone(decode, disk, day, stopped);
    }
  }

  function SessionsOf(digests: seq<Digest>): seq<Entry> {
    if digests == [] then [] else SessionsOf(digests[..|digests| - 1]) + digests[|digests| - 1].sessions
  }

  lemma NoLogNoEntries(decode: Decoder, day: string)
    ensures OfDay(EntriesIn(decode, ""), day) == []
  {
    EmptyLine(decode, day);
  }

  /** What the log and the digests hold at the moments a run can stop at. */
  lemma Moments(decode: Decoder, disk: Disk, day: string, late: string, later: string)
    ensures var sessions := OfDay(EntriesIn(decode, disk.log), day);
            var all := disk.log + late + later;
            && During(decode, disk, day, late, later, Before) == Disk(all, disk.digested)
            && During(decode, disk, day, late, later, Digested) == Disk(all, disk.digested + sessions)
            && During(decode, disk, day, late, later, After) ==
               if sessions == [] || OfDay(EntriesIn(decode, disk.log + late), day) == [] then
                 Disk(all, disk.digested + sessions)
               else Disk(Rewritten(decode, disk.log + late, day), disk.digested + sessions)
    ensures late == "" && later == "" ==>
              forall m | m in {Before, Digested, After} :: At(decode, disk, day, m) == During(decode, disk, day, late, later, m)
  {
    assert disk.digested + [] == disk.digested;
    if late == "" && later == "" {
      DuringAlone(decode, disk, day, Before);
      DuringAlone(decode, disk, day, Digested);
      DuringAlone(decode, disk, day, After);
    }
    hide EntriesIn, OfDay, Rewritten, At;
  }

  lemma AtRewriting(decode: Decoder, disk: Disk, day: string, late: string, later: string, written: string)
    requires written <= Rewritten(decode, disk.log + late, day)
    requires OfDay(EntriesIn(decode, disk.log), day) != [] && OfDay(EntriesIn(decode, disk.log + late), day) != []
    ensures During(decode, disk, day, late, later, Rewriting(|written|)) ==
            Disk(written, disk.digested + OfDay(EntriesIn(decode, disk.log), day))
  {
    hide EntriesIn, OfDay, Rewritten;
  }

  lemma OneMoreDigest(digests: seq<Digest>, d: Digest)
    ensures SessionsOf(digests + [d]) == SessionsOf(digests) + d.sessions
  {
    assert (digests + [d])[..|digests|] == digests;
  }

  lemma SessionsSummarized(d: Digest, day: string, entries: seq<Entry>)
    requires Summarizes(d, day, entries)
    ensures d.sessions == entries
  {}

  lemma NextRole(byRole: map<string, int>, entries: seq<Entry>, e: Entry)
    requires RoleTotals(byRole, entries)
    ensures RoleTotals(byRole[e.role := (if e.role in byRole then byRole[e.role] else 0) + e.cost], entries + [e])
  {
    assert (entries + [e])[..|entries|] == entries;
    assert RolesOf(entries + [e]) == RolesOf(entries) + {e.role};
    NoRole(entries, e.role);
    hide RolesOf;
  }

  lemma NextRig(byRig: map<string, int>, entries: seq<Entry>, e: Entry)
    requires RigTotals(byRig, entries)
    ensures RigTotals(if e.rig != "" then byRig[e.rig := (if e.rig in byRig then byRig[e.rig] else 0) + e.cost] else byRig,
                      entries + [e])
  {
    assert (entries + [e])[..|entries|] == entries;
    assert RigsOf(entries + [e]) == RigsOf(entries) + if e.rig != "" then {e.rig} else {};
    assert "" !in RigsOf(entries);
    NoRig(entries, e.rig);
    hide RigsOf;
  }

  lemma NextTotal(entries: seq<Entry>, e: Entry)
    ensures Total(entries + [e]) == Total(entries) + e.cost
  {
    assert (entries + [e])[..|entries|] == entries;
  }

  lemma {:induction false} NoRole(entries: seq<Entry>, role: string)
    ensures role !in RolesOf(entries) ==> TotalOfRole(entries, role) == 0
  {
    if entries != [] {
      var n := |entries| - 1;
      NoRole(entries[..n], role);
      assert entries[n] in entries && forall e | e in entries[..n] :: e in entries;
    }
  }

  lemma {:induction false} NoRig(entries: seq<Entry>, rig: string)
    ensures rig != "" && rig !in RigsOf(entries) ==> TotalOfRig(entries, rig) == 0
  {
    if entries != [] {
      var n := |entries| - 1;
      NoRig(entries[..n], rig);
      assert entries[n] in entries && forall e | e in entries[..n] :: e in entries;
    }
  }

  lemma NoLines(decode: Decoder, day: string)
    ensures OfDay(Collect([], EntryOf(decode)), day) == [] && Collect([], KeptLine(decode, day)) == []
  {}

  lemma NewContent(decode: Decoder, log: string, day: string)
    requires OfDay(EntriesIn(decode, log), day) != []
    ensures var kept := KeptLines(decode, log, day);
            Rewritten(decode, log, day) == if |kept| > 0 then Join(kept, '\n') + "\n" else Join(kept, '\n')
  {
    hide EntriesIn, KeptLines, OfDay;
  }
}
