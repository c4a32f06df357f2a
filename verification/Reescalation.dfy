/** Bumping the severity of an escalation, again and again. */
module Reescalation {
  import opened Text
  import opened Numbers
  import opened FieldSheet
  import opened EscalationFields

  datatype Bead = Bead(title: string, description: string, labels: set<string>)

  datatype Outcome =
    | NotFound
    | NotAnEscalation
    | AtLimit
    | AlreadyCritical
    | Bumped(oldSeverity: string, newSeverity: string, num: int)
    | UpdateFailed

  /** `bumpSeverity`: whatever is not low or medium becomes critical. */
  function BumpSeverity(severity: string): string {
    if severity == "low" then "medium" else if severity == "medium" then "high" else "critical"
  }

  /** Go's `++` on a 64-bit int. */
  function Increment(n: int): int {
    if n == MAX_INT then MIN_INT else n + 1
  }

  predicate Blocked(e: Escalation, limit: int) {
    (limit > 0 && e.count >= limit) || TextOf(e, Severity) == "critical"
  }

  /** The record after a bump. */
  function Bump(e: Escalation, who: string, now: string): Escalation {
    var original := if TextOf(e, OriginalSeverity) == "" then With(e, OriginalSeverity, TextOf(e, Severity)) else e;
    var raised := With(original, Severity, BumpSeverity(TextOf(e, Severity))).(count := Increment(e.count));
    With(With(raised, LastAt, now), LastBy, who)
  }

  function SeverityLabel(severity: string): string {
    "severity:" + severity
  }

  /** The bead after `ReescalateEscalation`, when its update works. */
  function Reescalated(b: Bead, who: string, now: string, limit: int): Bead {
    var e := Parsed(b.description);
    if "gt:escalation" !in b.labels || Blocked(e, limit) then b
    else
      var e' := Bump(e, who, now);
      b.(description := Description(b.title, Some(e')),
         labels := b.labels - {SeverityLabel(TextOf(e, Severity))} + {"reescalated", SeverityLabel(TextOf(e', Severity))})
  }

  class Beads {
    const reliable: bool  // updates always work
    var beads: map<string, Bead>

    constructor (reliable: bool)
      ensures this.reliable == reliable && beads == map[]
    {
      this.reliable, beads := reliable, map[];
    }

    /** `ReescalateEscalation`; `now` is the time as it is written, and the update may fail. */
    method ReescalateEscalation(id: string, who: string, now: string, limit: int) returns (r: Outcome)
      modifies this
      ensures id !in old(beads) ==> r == NotFound
      ensures r.Bumped? ==> beads == old(beads)[id := Reescalated(old(beads)[id], who, now, limit)]
      ensures !r.Bumped? ==> beads == old(beads)
      ensures reliable ==> r != UpdateFailed
      ensures id in old(beads) ==>
                var b := old(beads)[id];
                var e := Parsed(b.description);
                (r == NotAnEscalation <==> "gt:escalation" !in b.labels) &&
                (r == AtLimit <==> "gt:escalation" in b.labels && limit > 0 && e.count >= limit) &&
                (r == AtLimit || r == AlreadyCritical <==> "gt:escalation" in b.labels && Blocked(e, limit)) &&
                (r.Bumped? ==> r == Bumped(TextOf(e, Severity), BumpSeverity(TextOf(e, Severity)), Increment(e.count)))
    {
      hide Parsed, Description, With, TextOf, SeverityLabel, BumpSeverity;
      if id !in beads {
        return NotFound;
      }
      var issue := beads[id];
      if "gt:escalation" !in issue.labels {
        return NotAnEscalation;
      }
      var fields := ParseEscalationFields(issue.description);
      var oldSeverity := TextOf(fields, Severity);
      if limit > 0 && fields.count >= limit {
        return AtLimit;
      }
      if oldSeverity == "critical" {
        return AlreadyCritical;
      }
      forall e: Escalation, f: Field, v: string ensures With(e, f, v).count == e.count { WithKeepsCount(e, f, v); }
      if TextOf(fields, OriginalSeverity) == "" {
        fields := With(fields, OriginalSeverity, oldSeverity);
      }
      var newSeverity := BumpSeverity(oldSeverity);
      fields := With(fields, Severity, newSeverity);
      fields := fields.(count := Increment(fields.count));
      fields := With(fields, LastAt, now);
      fields := With(fields, LastBy, who);
      assert fields == Bump(Parsed(issue.description), who, now);
      var updated: bool := *;
      if !updated && !reliable {
        return UpdateFailed;
      }
      var labels := issue.labels - {SeverityLabel(oldSeverity)} + {"reescalated", SeverityLabel(newSeverity)};
      BumpedFacts(Parsed(issue.description), who, now);
      beads := beads[id := issue.(description := Description(issue.title, Some(fields)), labels := labels)];
      r := Bumped(oldSeverity, newSeverity, fields.count);
    }
  }

  // ----- one bump -----

  lemma WithKeepsCount(e: Escalation, f: Field, v: string)
    ensures With(e, f, v).count == e.count
  {}

  lemma BumpIsNew(severity: string)
    ensures BumpSeverity(severity) != "" && BumpSeverity(severity) != "low"
    ensures severity != "critical" ==> BumpSeverity(severity) != severity
  {}

  /** What a bump changes, field by field. */
  lemma BumpedFacts(e: Escalation, who: string, now: string)
    ensures var e' := Bump(e, who, now);
            && TextOf(e', Severity) == BumpSeverity(TextOf(e, Severity))
            && TextOf(e', OriginalSeverity) ==
               (if TextOf(e, OriginalSeverity) != "" then TextOf(e, OriginalSeverity) else TextOf(e, Severity))
            && TextOf(e', LastAt) == now && TextOf(e', LastBy) == who && e'.count == Increment(e.count)
            && forall f: Field | f != Severity && f != OriginalSeverity && f != LastAt && f != LastBy ::
                 TextOf(e', f) == TextOf(e, f)
  {
    BumpIsNew(TextOf(e, Severity));
    hide BumpSeverity;
  }

  // ----- a bump through the text -----

  lemma WordsSettle(severity: string)
    ensures Settled("medium") == "medium" && Settled("high") == "high" && Settled("critical") == "critical"
    ensures Settled(BumpSeverity(severity)) == BumpSeverity(severity) && Free(BumpSeverity(severity), '\n')
  {
    CleanSettles("medium");
    CleanSettles("high");
    CleanSettles("critical");
    hide Settled;
  }

  predicate NoEmptyText(e: Escalation) {
    forall f | f in e.texts :: e.texts[f] != ""
  }

  lemma SameTexts(a: Escalation, b: Escalation)
    requires NoEmptyText(a) && NoEmptyText(b) && a.count == b.count
    requires forall f: Field :: TextOf(a, f) == TextOf(b, f)
    ensures a == b
  {
    forall f: Field ensures (f in a.texts <==> f in b.texts) && (f in a.texts ==> a.texts[f] == b.texts[f]) {
      assert TextOf(a, f) == TextOf(b, f);
    }
    assert a.texts == b.texts;
  }

  lemma BumpKeepsShape(e: Escalation, who: string, now: string)
    requires Clean(e) && Free(who, '\n') && Free(now, '\n')
    ensures var e' := Bump(e, who, now);
            OneLineEach(e') && NoEmptyText(e') && InRange(e'.count)
  {
    WordsSettle(TextOf(e, Severity));
    hide BumpSeverity, Settled, Trimmed;
    assert Severity in e.texts ==> Free(e.texts[Severity], '\n');
  }

  lemma TextSettles(e: Escalation, f: Field)
    requires Clean(e)
    ensures Settled(TextOf(e, f)) == TextOf(e, f)
  {
    EmptySettles();
    if f in e.texts {
      CleanSettles(e.texts[f]);
    }
    hide Settled;
  }

  lemma SettledText(e: Escalation, f: Field)
    ensures TextOf(SettledAll(e), f) == Settled(TextOf(e, f)) && NoEmptyText(SettledAll(e))
  {
    EmptySettles();
    hide Settled;
  }

  /** Settling a bumped record is bumping with settled texts. */
  lemma BumpSettles(e: Escalation, who: string, now: string)
    requires Clean(e) && Free(who, '\n') && Free(now, '\n')
    ensures SettledAll(Bump(e, who, now)) == Bump(e, Settled(who), Settled(now))
  {
    var a, b := SettledAll(Bump(e, who, now)), Bump(e, Settled(who), Settled(now));
    assert a.count == b.count;
    CleanCount(e);
    SettledIsFree(who);
    SettledIsFree(now);
    BumpKeepsShape(e, Settled(who), Settled(now));
    SettledText(Bump(e, who, now), Severity);
    hide SettledAll, Bump, Settled, Clean, OneLineEach, NoEmptyText, TextOf;
    forall f: Field ensures TextOf(a, f) == TextOf(b, f) {
      BumpedText(e, who, now, f);
    }
    SameTexts(a, b);
  }

  lemma SettledIsFree(v: string)
    requires Free(v, '\n')
    ensures Free(Settled(v), '\n')
  {
    TrimSpaceTrims(v);
    hide TrimSpace, Trimmed;
  }

  lemma BumpedText(e: Escalation, who: string, now: string, f: Field)
    requires Clean(e)
    ensures TextOf(SettledAll(Bump(e, who, now)), f) == TextOf(Bump(e, Settled(who), Settled(now)), f)
  {
    hide *;
    SettledText(Bump(e, who, now), f);
    BumpedFacts(e, who, now);
    BumpedFacts(e, Settled(who), Settled(now));
    TextSettles(e, f);
    TextSettles(e, Severity);
    TextSettles(e, OriginalSeverity);
    WordsSettle(TextOf(e, Severity));
  }

  /** What a reader sees after a reescalation is the bumped record. */
  lemma ReescalatedRefines(b: Bead, who: string, now: string, limit: int)
    requires Free(who, '\n') && Free(now, '\n') && "gt:escalation" in b.labels
    ensures var e := Parsed(b.description);
            Parsed(Reescalated(b, who, now, limit).description) ==
            if Blocked(e, limit) then e else Bump(e, Settled(who), Settled(now))
  {
    var e := Parsed(b.description);
    ParsedIsClean(b.description);
    BumpKeepsShape(e, who, now);
    hide Parsed, Bump, Settled, Clean, OneLineEach, Description, SettledAll, Free, Blocked, SeverityLabel, TextOf;
    if !Blocked(e, limit) {
      FormatThenParse(b.title, Bump(e, who, now));
      BumpSettles(e, who, now);
    }
  }

  // ----- runs -----

  datatype Call = Call(who: string, now: string)

  predicate OneLineCalls(calls: seq<Call>) {
    forall c | c in calls :: Free(c.who, '\n') && Free(c.now, '\n')
  }

  /** One reescalation after another. */
  function Run(b: Bead, calls: seq<Call>, limit: int): Bead {
    if calls == [] then b
    else
      var last := calls[|calls| - 1];
      Reescalated(Run(b, calls[..|calls| - 1], limit), last.who, last.now, limit)
  }

  function Rank(severity: string): Option<nat> {
    if severity == "low" then Some(0)
    else if severity == "medium" then Some(1)
    else if severity == "high" then Some(2)
    else if severity == "critical" then Some(3)
    else None
  }

  /** How many bumps a severity has before it: an unknown one has one, to critical. */
  function Room(severity: string): nat {
    match Rank(severity)
    case None => 1
    case Some(r) => 3 - r
  }

  function Raised(severity: string, bumps: nat): string {
    if bumps == 0 then severity else BumpSeverity(Raised(severity, bumps - 1))
  }

  function Min(a: int, b: int): int {
    if a <= b then a else b
  }

  /** How many of n calls bump: as many as there is room and the limit leaves. */
  function BumpsOf(e: Escalation, n: nat, limit: int): (k: nat)
    ensures k <= n
  {
    var room := Min(n, Room(TextOf(e, Severity)));
    if limit <= 0 then room else if e.count >= limit then 0 else Min(room, limit - e.count)
  }

  /** Go's addition on 64-bit ints, for a few. */
  function Plus(n: int, k: nat): int {
    if n + k > MAX_INT then n + k - 0x1_0000_0000_0000_0000 else n + k
  }

  /** The record that these calls have made of a record: the first `k` of them bumped, so the
      last of those says when and by whom. */
  predicate After(e: Escalation, e': Escalation, calls: seq<Call>, limit: int) {
    var k := BumpsOf(e, |calls|, limit);
    && TextOf(e', Severity) == Raised(TextOf(e, Severity), k)
    && e'.count == Plus(e.count, k)
    && TextOf(e', OriginalSeverity) ==
       (if k == 0 || TextOf(e, OriginalSeverity) != "" then TextOf(e, OriginalSeverity) else TextOf(e, Severity))
    && TextOf(e', LastAt) == (if k == 0 then TextOf(e, LastAt) else Settled(calls[k - 1].now))
    && TextOf(e', LastBy) == (if k == 0 then TextOf(e, LastBy) else Settled(calls[k - 1].who))
    && forall f: Field | f != Severity && f != OriginalSeverity && f != LastAt && f != LastBy && f != Count ::
         TextOf(e', f) == TextOf(e, f)
  }

  lemma {:induction false} RaisedRoom(severity: string, k: nat)
    requires k <= Room(severity)
    ensures Room(Raised(severity, k)) == Room(severity) - k
    ensures Raised(severity, k) == "critical" <==> k == Room(severity)
    ensures Rank(severity).Some? ==> Rank(Raised(severity, k)) == Some(Rank(severity).value + k)
  {
    if k > 0 {
      RaisedRoom(severity, k - 1);
    }
  }

  lemma AfterBlocked(e: Escalation, mid: Escalation, calls: seq<Call>, limit: int, last: Call)
    requires After(e, mid, calls, limit) && BumpsOf(e, |calls| + 1, limit) == BumpsOf(e, |calls|, limit)
    ensures After(e, mid, calls + [last], limit)
  {
    hide BumpsOf, TextOf, Raised, Plus, Settled;
    assert forall i | 0 <= i < |calls| :: (calls + [last])[i] == calls[i];
  }

  /** An empty severity is bumped at most once, so the original severity is known from then on. */
  lemma BumpedTwice(e: Escalation, n: nat, limit: int)
    requires n > 0 && BumpsOf(e, n + 1, limit) == n + 1
    ensures TextOf(e, Severity) != ""
  {
    hide TextOf;
  }

  lemma AfterBumped(e: Escalation, mid: Escalation, calls: seq<Call>, limit: int, last: Call)
    requires After(e, mid, calls, limit) && BumpsOf(e, |calls|, limit) == |calls|
    requires BumpsOf(e, |calls| + 1, limit) == |calls| + 1
    requires Increment(Plus(e.count, |calls|)) == Plus(e.count, |calls| + 1)
    ensures After(e, Bump(mid, Settled(last.who), Settled(last.now)), calls + [last], limit)
  {
    hide Bump, BumpsOf, TextOf, Plus, Increment, Settled, BumpSeverity;
    var k := |calls|;
    assert Raised(TextOf(e, Severity), k + 1) == BumpSeverity(Raised(TextOf(e, Severity), k));
    assert k == 0 ==> TextOf(mid, Severity) == TextOf(e, Severity);
    hide Raised;
    if k > 0 {
      BumpedTwice(e, k, limit);
    }
    BumpedFacts(mid, Settled(last.who), Settled(last.now));
    assert (calls + [last])[k] == last;
  }

  /** One more call. */
  lemma AfterOneMore(e: Escalation, mid: Escalation, calls: seq<Call>, limit: int, last: Call)
    requires After(e, mid, calls, limit) && InRange(e.count) && limit <= MAX_INT
    ensures After(e, if Blocked(mid, limit) then mid else Bump(mid, Settled(last.who), Settled(last.now)), calls + [last], limit)
  {
    hide *;
    NextBumps(e, mid, calls, limit);
    if Blocked(mid, limit) {
      AfterBlocked(e, mid, calls, limit, last);
    } else {
      AfterBumped(e, mid, calls, limit, last);
    }
  }

  /** One call more bumps once more, unless it is blocked; and it is not blocked only if all
      calls before it bumped. */
  lemma NextBumps(e: Escalation, mid: Escalation, calls: seq<Call>, limit: int)
    requires After(e, mid, calls, limit) && InRange(e.count) && limit <= MAX_INT
    ensures var k := BumpsOf(e, |calls|, limit);
            && BumpsOf(e, |calls| + 1, limit) == k + (if Blocked(mid, limit) then 0 else 1)
            && (!Blocked(mid, limit) ==> k == |calls|)
            && Increment(Plus(e.count, k)) == Plus(e.count, k + 1)
  {
    RaisedRoom(TextOf(e, Severity), BumpsOf(e, |calls|, limit));
    hide BumpSeverity, Rank, Room, TextOf, Raised, Settled;
  }

  lemma NoCalls(e: Escalation, limit: int)
    requires InRange(e.count)
    ensures After(e, e, [], limit)
  {
    hide BumpSeverity, Rank, TextOf;
  }

  lemma LabelsStay(b: Bead, who: string, now: string, limit: int)
    ensures "gt:escalation" in Reescalated(b, who, now, limit).labels <==> "gt:escalation" in b.labels
  {
    hide Parsed, Blocked, Bump, Description, TextOf;
    assert forall s :: SeverityLabel(s)[0] != "gt:escalation"[0];
    assert "reescalated"[0] != "gt:escalation"[0];
  }

  /** Any run, from any description text: what the text says at the end is what the closed form
      says about what it said at the start. */
  lemma {:induction false} RunFollows(b: Bead, calls: seq<Call>, limit: int)
    requires "gt:escalation" in b.labels && OneLineCalls(calls) && limit <= MAX_INT
    ensures "gt:escalation" in Run(b, calls, limit).labels
    ensures After(Parsed(b.description), Parsed(Run(b, calls, limit).description), calls, limit)
  {
    RawCountInRange(b.description);
    hide Parsed, After, Reescalated, Settled, InRange, Bump;
    if calls == [] {
      NoCalls(Parsed(b.description), limit);
    } else {
      var n := |calls| - 1;
      var last, mid := calls[n], Run(b, calls[..n], limit);
      assert last in calls;
      RunFollows(b, calls[..n], limit);
      LabelsStay(mid, last.who, last.now, limit);
      ReescalatedRefines(mid, last.who, last.now, limit);
      AfterOneMore(Parsed(b.description), Parsed(mid.description), calls[..n], limit, last);
      assert calls[..n] + [last] == calls;
    }
  }

  lemma BumpsFit(e: Escalation, n: nat, limit: int)
    ensures BumpsOf(e, n, limit) <= Room(TextOf(e, Severity)) <= 3
    ensures limit > 0 && e.count <= limit ==> e.count + BumpsOf(e, n, limit) <= limit
    ensures Rank(TextOf(e, Severity)).Some? ==> Room(TextOf(e, Severity)) == 3 - Rank(TextOf(e, Severity)).value
  {
    hide TextOf;
  }

  /** What the closed form means for a record with a valid severity. */
  ghost predicate Bounded(e: Escalation, e': Escalation, n: nat, limit: int) {
    var k := BumpsOf(e, n, limit);
    && k <= 3
    && Rank(TextOf(e, Severity)).Some?
    && Rank(TextOf(e', Severity)) == Some(Min(3, Rank(TextOf(e, Severity)).value + k))
    && (e.count <= MAX_INT - 3 ==> e'.count == e.count + k)
    && (limit > 0 && e.count <= limit ==> e'.count <= limit)
    && (TextOf(e, OriginalSeverity) == "" && k > 0 ==> TextOf(e', OriginalSeverity) == TextOf(e, Severity))
  }

  lemma AfterBounds(e: Escalation, e': Escalation, calls: seq<Call>, limit: int)
    requires After(e, e', calls, limit) && InRange(e.count) && 0 <= limit <= MAX_INT && Rank(TextOf(e, Severity)).Some?
    ensures Bounded(e, e', |calls|, limit)
  {
    BumpsFit(e, |calls|, limit);
    RaisedRoom(TextOf(e, Severity), BumpsOf(e, |calls|, limit));
    hide BumpSeverity, TextOf, Raised, BumpsOf, Rank, Room;
  }

  /** From a valid severity, every run raises it by the number of its bumps, of which there are
      at most three, up to critical; the count counts them and never passes a limit it was
      within; and the original severity is that of the start from the first bump on. */
  lemma RunBounds(b: Bead, calls: seq<Call>, limit: int)
    requires "gt:escalation" in b.labels && OneLineCalls(calls) && 0 <= limit <= MAX_INT
    requires Rank(TextOf(Parsed(b.description), Severity)).Some?
    ensures Bounded(Parsed(b.description), Parsed(Run(b, calls, limit).description), |calls|, limit)
  {
    hide *;
    RawCountInRange(b.description);
    RunFollows(b, calls, limit);
    AfterBounds(Parsed(b.description), Parsed(Run(b, calls, limit).description), calls, limit);
  }

  // ----- labels -----

  const LEVELS := ["low", "medium", "high", "critical"]

  /** The severity label matches the severity in the text, and there is no other. */
  predicate LabelMatches(b: Bead) {
    var severity := TextOf(Parsed(b.description), Severity);
    SeverityLabel(severity) in b.labels && forall l | l in LEVELS && l != severity :: SeverityLabel(l) !in b.labels
  }

  lemma SeverityLabelInjective(s: string, t: string)
    requires SeverityLabel(s) == SeverityLabel(t)
    ensures s == t
  {
    assert s == SeverityLabel(s)[|"severity:"|..] && t == SeverityLabel(t)[|"severity:"|..];
  }

  lemma ReescalatedLabel(s: string)
    ensures SeverityLabel(s) != "reescalated"
  {
    assert SeverityLabel(s)[0] != "reescalated"[0];
  }

  /** Exchanging one severity's label for another's. */
  lemma NewLabels(labels: set<string>, before: string, after: string)
    requires forall l | l in LEVELS && l != before :: SeverityLabel(l) !in labels
    ensures var next := labels - {SeverityLabel(before)} + {"reescalated", SeverityLabel(after)};
            SeverityLabel(after) in next && forall l | l in LEVELS && l != after :: SeverityLabel(l) !in next
  {
    var next := labels - {SeverityLabel(before)} + {"reescalated", SeverityLabel(after)};
    forall l | l in LEVELS && l != after ensures SeverityLabel(l) !in next {
      ReescalatedLabel(l);
      if SeverityLabel(l) == SeverityLabel(after) {
        SeverityLabelInjective(l, after);
      }
    }
    hide SeverityLabel;
  }

  lemma LabelsOf(b: Bead, who: string, now: string, limit: int)
    requires "gt:escalation" in b.labels
    ensures var e := Parsed(b.description);
            Reescalated(b, who, now, limit).labels ==
            if Blocked(e, limit) then b.labels
            else b.labels - {SeverityLabel(TextOf(e, Severity))} +
                 {"reescalated", SeverityLabel(BumpSeverity(TextOf(e, Severity)))}
  {
    BumpedFacts(Parsed(b.description), who, now);
    hide Parsed, Bump, BumpSeverity, SeverityLabel, TextOf, Description, Blocked;
  }

  lemma LabelMatchesStep(b: Bead, who: string, now: string, limit: int)
    requires LabelMatches(b) && Free(who, '\n') && Free(now, '\n') && "gt:escalation" in b.labels
    ensures LabelMatches(Reescalated(b, who, now, limit))
  {
    var e := Parsed(b.description);
    var severity := TextOf(e, Severity);
    ReescalatedRefines(b, who, now, limit);
    BumpedFacts(e, Settled(who), Settled(now));
    LabelsOf(b, who, now, limit);
    hide Parsed, Bump, BumpSeverity, SeverityLabel, Settled, TextOf, Reescalated, Blocked;
    NewLabels(b.labels, severity, BumpSeverity(severity));
  }

  /** The label keeps matching the text, over every run. */
  lemma {:induction false} LabelAlwaysMatches(b: Bead, calls: seq<Call>, limit: int)
    requires LabelMatches(b) && OneLineCalls(calls) && "gt:escalation" in b.labels
    ensures LabelMatches(Run(b, calls, limit)) && "gt:escalation" in Run(b, calls, limit).labels
  {
    hide LabelMatches, Reescalated, Free;
    if calls != [] {
      var n := |calls| - 1;
      var last, mid := calls[n], Run(b, calls[..n], limit);
      assert last in calls;
      LabelAlwaysMatches(b, calls[..n], limit);
      LabelMatchesStep(mid, last.who, last.now, limit);
      LabelsStay(mid, last.who, last.now, limit);
    }
  }

  /** One call, told in words: what stops it, and what it does to title and labels. */
  lemma OneCall(b: Bead, who: string, now: string, limit: int)
    requires "gt:escalation" in b.labels
    ensures var e := Parsed(b.description);
            var severity, after := TextOf(e, Severity), Reescalated(b, who, now, limit);
            var next := if severity == "low" then "medium" else if severity == "medium" then "high" else "critical";
            if (limit > 0 && e.count >= limit) || severity == "critical" then after == b
            else
              && after.title == b.title
              && after.labels == b.labels - {"severity:" + severity} + {"reescalated", "severity:" + next}
  {
    LabelsOf(b, who, now, limit);
    hide Parsed, Bump, TextOf, Description;
  }

  /** A bead that was ever reescalated is marked so. */
  lemma {:induction false} MarkStays(b: Bead, calls: seq<Call>, limit: int)
    requires "gt:escalation" in b.labels && OneLineCalls(calls)
    ensures calls != [] && !Blocked(Parsed(b.description), limit) ==> "reescalated" in Run(b, calls, limit).labels
    ensures "reescalated" in b.labels ==> "reescalated" in Run(b, calls, limit).labels
    ensures "gt:escalation" in Run(b, calls, limit).labels
  {
    hide Reescalated, Blocked, Parsed, Free;
    if calls != [] {
      var n := |calls| - 1;
      var last, mid := calls[n], Run(b, calls[..n], limit);
      MarkStays(b, calls[..n], limit);
      LabelsStay(mid, last.who, last.now, limit);
      LabelsOf(mid, last.who, last.now, limit);
      hide SeverityLabel, TextOf, BumpSeverity;
      ReescalatedLabel(TextOf(Parsed(mid.description), Severity));
      if n == 0 {
        assert calls[..n] == [];
      }
    }
  }
}
