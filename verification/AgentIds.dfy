/** Agent bead IDs: prefix-role, prefix-rig-role, prefix-rig-role-name and prefix-dog-name. */
module AgentIds {
  import opened Text

  predicate IsTownRole(s: string) {
    s == "mayor" || s == "deacon"
  }

  predicate IsDogRole(s: string) {
    s == "dog"
  }

  predicate IsRigRole(s: string) {
    s == "witness" || s == "refinery"
  }

  predicate IsNamedRole(s: string) {
    s == "crew" || s == "polecat"
  }

  predicate IsRole(s: string) {
    IsTownRole(s) || IsDogRole(s) || IsRigRole(s) || IsNamedRole(s)
  }

  /** No hyphen in it. */
  predicate Solid(s: string) {
    Free(s, '-')
  }

  // ----- building -----

  /** `AgentBeadIDWithPrefix`. */
  function Build(prefix: string, rig: string, role: string, name: string): string {
    if rig == "" then prefix + "-" + role
    else if name == "" then prefix + "-" + rig + "-" + role
    else prefix + "-" + rig + "-" + role + "-" + name
  }

  /** `DogBeadID` and `DogBeadIDTown`, by prefix. */
  function BuildDog(prefix: string, name: string): string {
    prefix + "-dog-" + name
  }

  // ----- parsing -----

  datatype Agent = Agent(rig: string, role: string, name: string)

  /** `ParseAgentBeadID`: the segments are read from the left. */
  function Parse(id: string): Option<Agent> {
    var hyphen := IndexOf(id, '-');
    if hyphen < 2 || hyphen > 3 then None
    else Some(ParseParts(Split(id[hyphen + 1..], '-')))
  }

  function ParseParts(parts: seq<string>): Agent
    requires |parts| >= 1
  {
    if |parts| == 1 then Agent("", parts[0], "")
    else if |parts| == 2 then
      if parts[0] == "dog" then Agent("", "dog", parts[1]) else Agent(parts[0], parts[1], "")
    else if |parts| == 3 then Agent(parts[0], parts[1], parts[2])
    else if parts[0] == "dog" then Agent("", "dog", Join(parts[1..], '-'))
    else Agent(parts[0], parts[1], Join(parts[2..], '-'))
  }

  /** What follows a hyphen-free prefix, in segments. */
  lemma Segments(prefix: string, rest: string)
    requires Solid(prefix)
    ensures IndexOf(prefix + "-" + rest, '-') == |prefix|
    ensures (prefix + "-" + rest)[|prefix| + 1..] == rest
  {
    IndexOfAppend(prefix, '-', rest);
    assert prefix + "-" + rest == prefix + ['-'] + rest;
  }

  /** The segments of what Build writes after the prefix. */
  function Body(rig: string, role: string, name: string): string {
    if rig == "" then role else if name == "" then rig + "-" + role else rig + "-" + role + "-" + name
  }

  lemma BodySegments(rig: string, role: string, name: string)
    ensures Split(Body(rig, role, name), '-') ==
            (if rig == "" then [] else Split(rig, '-')) + Split(role, '-') +
            (if rig == "" || name == "" then [] else Split(name, '-'))
  {
    if rig != "" {
      SplitAppend(rig, role, '-');
      assert rig + "-" + role == rig + ['-'] + role;
      if name != "" {
        SplitAppend(rig + "-" + role, name, '-');
        assert rig + "-" + role + "-" + name == rig + "-" + role + ['-'] + name;
      }
    }
  }

  lemma BuildIsBody(prefix: string, rig: string, role: string, name: string)
    ensures Build(prefix, rig, role, name) == prefix + "-" + Body(rig, role, name)
  {
    if rig != "" {
      assert prefix + "-" + rig + "-" + role == prefix + "-" + (rig + "-" + role);
      assert prefix + "-" + rig + "-" + role + "-" + name == prefix + "-" + (rig + "-" + role + "-" + name);
    }
  }

  lemma SolidOrSplit(s: string)
    ensures Solid(s) ==> Split(s, '-') == [s]
    ensures !Solid(s) ==> |Split(s, '-')| >= 2
  {
    if Solid(s) {
      SplitFree(s, '-');
    } else if |Split(s, '-')| == 1 {
      JoinSplit(s, '-');
      SplitPartsFree(s, '-');
    }
  }

  lemma SegmentsAreSolid(s: string, i: nat)
    requires i < |Split(s, '-')|
    ensures Solid(Split(s, '-')[i])
  {
    SplitPartsFree(s, '-');
  }

  /** When parsing undoes building. */
  predicate Readable(prefix: string, rig: string, role: string, name: string) {
    && 2 <= |prefix| <= 3 && Solid(rig) && Solid(role)
    && (rig == "" ==> name == "") && (rig == "dog" ==> name != "" && Solid(name))
  }

  lemma ParseIsParts(prefix: string, rest: string)
    requires Solid(prefix)
    ensures Parse(prefix + "-" + rest) ==
            if 2 <= |prefix| <= 3 then Some(ParseParts(Split(rest, '-'))) else None
  {
    Segments(prefix, rest);
  }

  lemma ReadBack(rig: string, role: string, name: string)
    requires Solid(rig) && Solid(role)
    requires (rig == "" ==> name == "") && (rig == "dog" ==> name != "" && Solid(name))
    ensures ParseParts(Split(Body(rig, role, name), '-')) == Agent(rig, role, name)
  {
    BodySegments(rig, role, name);
    SolidOrSplit(rig);
    SolidOrSplit(role);
    SolidOrSplit(name);
    JoinSplit(name, '-');
    hide Split;
    var parts := Split(Body(rig, role, name), '-');
    if rig != "" && name != "" {
      assert parts == [rig, role] + Split(name, '-');
      assert parts[2..] == Split(name, '-');
    }
  }

  lemma ReadBackOnly(rig: string, role: string, name: string)
    requires ParseParts(Split(Body(rig, role, name), '-')) == Agent(rig, role, name)
    ensures Solid(rig) && Solid(role) && (rig == "" ==> name == "") && (rig == "dog" ==> name != "" && Solid(name))
  {
    var parts := Split(Body(rig, role, name), '-');
    SegmentsAreSolid(Body(rig, role, name), 0);
    if |parts| > 1 { SegmentsAreSolid(Body(rig, role, name), 1); }
    assert Solid("") && Solid("dog");
    BodySegments(rig, role, name);
    SolidOrSplit(rig);
    SolidOrSplit(role);
    SolidOrSplit(name);
    hide Split, Join, Body, Solid;
  }

  /** With a hyphen-free prefix, an ID reads back as the agent it was built for exactly when the
      prefix has two or three characters, rig and role have no hyphen, there is no name without
      a rig, and a rig called dog has agents with hyphen-free names only. */
  lemma BuildThenParseIff(prefix: string, rig: string, role: string, name: string)
    requires Solid(prefix)
    ensures Parse(Build(prefix, rig, role, name)) == Some(Agent(rig, role, name)) <==> Readable(prefix, rig, role, name)
  {
    BuildIsBody(prefix, rig, role, name);
    ParseIsParts(prefix, Body(rig, role, name));
    hide Build, Parse, ParseParts, Body, Split, Solid;
    if Readable(prefix, rig, role, name) {
      ReadBack(rig, role, name);
    } else if 2 <= |prefix| <= 3 && ParseParts(Split(Body(rig, role, name), '-')) == Agent(rig, role, name) {
      ReadBackOnly(rig, role, name);
    }
  }

  /** No two readable agents share an ID. */
  lemma BuildIsInjective(prefix: string, rig: string, role: string, name: string, rig': string, role': string, name': string)
    requires Solid(prefix) && Readable(prefix, rig, role, name) && Readable(prefix, rig', role', name')
    requires Build(prefix, rig, role, name) == Build(prefix, rig', role', name')
    ensures rig == rig' && role == role' && name == name'
  {
    BuildThenParseIff(prefix, rig, role, name);
    BuildThenParseIff(prefix, rig', role', name');
    hide Build, Parse, Readable;
  }

  lemma DogBody(prefix: string, name: string)
    ensures BuildDog(prefix, name) == prefix + "-" + ("dog-" + name)
    ensures Split("dog-" + name, '-') == ["dog"] + Split(name, '-')
  {
    assert prefix + "-dog-" + name == prefix + "-" + ("dog-" + name);
    SplitAppend("dog", name, '-');
    SplitFree("dog", '-');
    assert "dog" + ['-'] + name == "dog-" + name;
  }

  /** A dog's ID reads back unless its name has exactly one hyphen: three segments are always
      taken for rig, role and name. */
  lemma DogThenParseIff(prefix: string, name: string)
    requires Solid(prefix)
    ensures Parse(BuildDog(prefix, name)) == Some(Agent("", "dog", name)) <==>
            2 <= |prefix| <= 3 && |Split(name, '-')| != 2
  {
    DogBody(prefix, name);
    ParseIsParts(prefix, "dog-" + name);
    JoinSplit(name, '-');
    SolidOrSplit(name);
    hide Parse, BuildDog, Split;
    var parts := ["dog"] + Split(name, '-');
    assert parts[1..] == Split(name, '-');
  }

  /** Dogs and rig agents do not share IDs either, as long as no rig is called dog. */
  lemma DogsApart(prefix: string, dog: string, rig: string, role: string, name: string)
    requires Solid(prefix) && Readable(prefix, rig, role, name) && rig != "dog"
    ensures BuildDog(prefix, dog) != Build(prefix, rig, role, name)
  {
    DogBody(prefix, dog);
    BuildIsBody(prefix, rig, role, name);
    BodySegments(rig, role, name);
    SolidOrSplit(rig);
    SolidOrSplit(role);
    assert BuildDog(prefix, dog)[|prefix| + 1..] == "dog-" + dog;
    assert Build(prefix, rig, role, name)[|prefix| + 1..] == Body(rig, role, name);
    assert |Split(dog, '-')| >= 1 && (["dog"] + Split(dog, '-'))[0] == "dog";
    hide Split, Body, Build, BuildDog;
  }

  // ----- validation -----

  datatype Verdict = Valid | NoID | NoPrefix | NoContent | NoRole | NeedsName | NeedsRig | TooMuch

  /** The last segment that is a role token, or -1. */
  function LastRole(parts: seq<string>): (i: int)
    ensures -1 <= i < |parts|
    ensures i >= 0 ==> IsRole(parts[i])
    ensures forall j | i < j < |parts| :: !IsRole(parts[j])
  {
    if parts == [] then -1
    else if IsRole(parts[|parts| - 1]) then |parts| - 1
    else LastRole(parts[..|parts| - 1])
  }

  /** The verdict on a role with the rig before it and the name after it. */
  function Judge(role: string, rig: string, name: string): Verdict
    requires IsRole(role)
  {
    if IsTownRole(role) then (if rig != "" || name != "" then TooMuch else Valid)
    else if IsDogRole(role) then (if rig != "" then TooMuch else if name == "" then NeedsName else Valid)
    else if IsRigRole(role) then (if rig == "" then NeedsRig else if name != "" then TooMuch else Valid)
    else if rig == "" then NeedsRig else if name == "" then NeedsName else Valid
  }

  /** The verdict on what follows the prefix, in segments. */
  function JudgeParts(parts: seq<string>): Verdict
    requires |parts| >= 1
  {
    if parts[0] == "" then NoContent
    else if |parts| == 1 then
      if IsTownRole(parts[0]) then Valid
      else if IsDogRole(parts[0]) then NeedsName
      else if IsRole(parts[0]) then NeedsRig
      else NoRole
    else if |parts| == 2 then
      if IsDogRole(parts[0]) || IsRigRole(parts[1]) then Valid
      else if IsNamedRole(parts[1]) then NeedsName
      else if IsTownRole(parts[1]) then TooMuch
      else NoRole
    else
      var i := LastRole(parts);
      if i == -1 then NoRole else Judge(parts[i], Join(parts[..i], '-'), Join(parts[i + 1..], '-'))
  }

  function Judged(id: string): Verdict {
    var hyphen := IndexOf(id, '-');
    if id == "" then NoID else if hyphen <= 0 then NoPrefix else JudgeParts(Split(id[hyphen + 1..], '-'))
  }

  /** `ValidateAgentID`. */
  method ValidateAgentID(id: string) returns (v: Verdict)
    ensures v == Judged(id)
  {
    if id == "" {
      return NoID;
    }
    var hyphen := IndexOf(id, '-');
    if hyphen <= 0 {
      return NoPrefix;
    }
    var parts := Split(id[hyphen + 1..], '-');
    if parts[0] == "" {
      return NoContent;
    }
    if |parts| == 1 {
      return if IsTownRole(parts[0]) then Valid
             else if IsDogRole(parts[0]) then NeedsName
             else if IsRole(parts[0]) then NeedsRig
             else NoRole;
    }
    if |parts| == 2 {
      return if IsDogRole(parts[0]) then Valid
             else if IsRigRole(parts[1]) then Valid
             else if IsNamedRole(parts[1]) then NeedsName
             else if IsTownRole(parts[1]) then TooMuch
             else NoRole;
    }
    hide IsRole, IsTownRole, IsDogRole, IsRigRole, IsNamedRole, Split, Join;
    var roleIdx, role := -1, "";
    var i := |parts| - 1;
    while i >= 0
      invariant -1 <= i < |parts|
      invariant roleIdx == -1 && forall j | i < j < |parts| :: !IsRole(parts[j])
    {
      if IsRole(parts[i]) {
        roleIdx, role := i, parts[i];
        break;
      }
      i := i - 1;
    }
    assert roleIdx == LastRole(parts);
    if roleIdx == -1 {
      return NoRole;
    }
    var rig, name := Join(parts[..roleIdx], '-'), Join(parts[roleIdx + 1..], '-');
    if IsTownRole(role) {
      return if rig != "" || name != "" then TooMuch else Valid;
    }
    if IsDogRole(role) {
      return if rig != "" then TooMuch else if name == "" then NeedsName else Valid;
    }
    if IsRigRole(role) {
      return if rig == "" then NeedsRig else if name != "" then TooMuch else Valid;
    }
    return if rig == "" then NeedsRig else if name == "" then NeedsName else Valid;
  }

  /** A name whose last role token, if any, leaves an ID valid: a witness or refinery at its
      very end, or a crew or polecat with more behind it. */
  predicate NameIsHarmless(name: string) {
    var parts := Split(name, '-');
    var i := LastRole(parts);
    i == -1 || (IsRigRole(parts[i]) && Join(parts[i + 1..], '-') == "") ||
    (IsNamedRole(parts[i]) && Join(parts[i + 1..], '-') != "")
  }

  lemma FirstSegment(s: string)
    requires s != ""
    ensures Split(s, '-')[0] == "" <==> s[0] == '-'
  {}

  lemma LastRoleAppend(a: seq<string>, b: seq<string>)
    ensures LastRole(a + b) == if LastRole(b) >= 0 then |a| + LastRole(b) else LastRole(a)
  {
    hide IsRole;
    assert forall j | 0 <= j < |a| :: (a + b)[j] == a[j];
    assert forall j | 0 <= j < |b| :: (a + b)[|a| + j] == b[j];
    var k := LastRole(a + b);
    assert k >= |a| ==> (a + b)[k] == b[k - |a|];
  }

  lemma RoleClasses(role: string)
    ensures IsRole(role) ==> role != "" && Solid(role)
    ensures IsRigRole(role) ==> !IsTownRole(role) && !IsDogRole(role) && !IsNamedRole(role)
    ensures IsNamedRole(role) ==> !IsTownRole(role) && !IsDogRole(role)
  {}

  /** With something before the role, only rig roles at the end and named roles before a name are valid. */
  lemma JudgeWithRig(role: string, rig: string, name: string)
    requires IsRole(role) && rig != ""
    ensures Judge(role, rig, name) == Valid <==> (IsRigRole(role) && name == "") || (IsNamedRole(role) && name != "")
  {
    RoleClasses(role);
    hide IsTownRole, IsDogRole, IsRigRole, IsNamedRole;
  }

  lemma OneRole(role: string)
    requires IsRole(role)
    ensures LastRole([role]) == 0
  {
    hide IsRole;
  }

  lemma JudgedBody(prefix: string, rest: string)
    requires Solid(prefix) && prefix != ""
    ensures Judged(prefix + "-" + rest) == JudgeParts(Split(rest, '-'))
  {
    Segments(prefix, rest);
    hide JudgeParts, Split;
  }

  lemma HarmlessMeans(name: string)
    ensures var parts := Split(name, '-');
            var i := LastRole(parts);
            NameIsHarmless(name) <==>
            i == -1 || (IsRigRole(parts[i]) && Join(parts[i + 1..], '-') == "") ||
            (IsNamedRole(parts[i]) && Join(parts[i + 1..], '-') != "")
  {}

  /** The verdict of the scan from the right on a role with segments before it and a name
      after it. */
  lemma ScanVerdict(before: seq<string>, role: string, name: string)
    requires IsRole(role)
    ensures var parts := before + [role] + Split(name, '-');
            var i := LastRole(parts);
            i >= 0 &&
            var v := Judge(parts[i], Join(parts[..i], '-'), Join(parts[i + 1..], '-'));
            if LastRole(Split(name, '-')) == -1 then v == Judge(role, Join(before, '-'), name)
            else (v == Valid <==> NameIsHarmless(name))
  {
    hide *;
    var tail := Split(name, '-');
    var parts := before + [role] + tail;
    var i, k := LastRole(parts), LastRole(tail);
    LastRoleAppend(before + [role], tail);
    LastRoleAppend(before, [role]);
    OneRole(role);
    HarmlessMeans(name);
    if k == -1 {
      JoinSplit(name, '-');
      assert i == |before| && parts[..i] == before && parts[i + 1..] == tail && parts[i] == role;
    } else {
      var head := before + [role] + tail[..k];
      assert i == |before| + 1 + k && parts[..i] == head && parts[i + 1..] == tail[k + 1..] && parts[i] == tail[k];
      HeadIsNotEmpty(head, role);
      JudgeWithRig(tail[k], Join(head, '-'), Join(tail[k + 1..], '-'));
    }
  }

  lemma HeadIsNotEmpty(head: seq<string>, role: string)
    requires role in head && IsRole(role)
    ensures Join(head, '-') != ""
  {
    RoleClasses(role);
    if |head| == 1 {
      assert head[0] == role;
    }
  }

  lemma JudgePartsScans(parts: seq<string>)
    requires |parts| >= 3 && LastRole(parts) >= 0
    ensures var i := LastRole(parts);
            JudgeParts(parts) ==
            if parts[0] == "" then NoContent else Judge(parts[i], Join(parts[..i], '-'), Join(parts[i + 1..], '-'))
  {
    hide LastRole, Judge, Join, IsRole;
  }

  /** The IDs of named agents are valid for every rig that does not begin with a hyphen,
      hyphenated or not, and exactly the harmless names. */
  lemma NamedIdIsValidIff(prefix: string, rig: string, role: string, name: string)
    requires Solid(prefix) && prefix != "" && rig != "" && name != "" && role in {"crew", "polecat"}
    ensures Judged(Build(prefix, rig, role, name)) == Valid <==> rig[0] != '-' && NameIsHarmless(name)
  {
    assert IsRole(role);
    RoleClasses(role);
    hide *;
    BuildIsBody(prefix, rig, role, name);
    JudgedBody(prefix, Body(rig, role, name));
    BodySegments(rig, role, name);
    FirstSegment(rig);
    JoinSplit(rig, '-');
    SolidOrSplit(role);
    SplitSize(rig);
    SplitSize(name);
    ScanVerdict(Split(rig, '-'), role, name);
    JudgeWithRig(role, rig, name);
    HarmlessMeans(name);
    var parts := Split(rig, '-') + [role] + Split(name, '-');
    assert Split(Body(rig, role, name), '-') == parts && parts[0] == Split(rig, '-')[0];
    JudgePartsScans(parts);
  }

  lemma SplitSize(s: string)
    ensures |Split(s, '-')| >= 1
  {}

  lemma JudgeTwo(first: string, role: string)
    requires IsRigRole(role)
    ensures JudgeParts([first, role]) == Valid <==> first != ""
  {
    hide IsRigRole, IsTownRole, IsNamedRole, IsDogRole;
  }

  /** The IDs of witnesses and refineries are valid for every rig that does not begin with a hyphen. */
  lemma RigIdIsValidIff(prefix: string, rig: string, role: string)
    requires Solid(prefix) && prefix != "" && rig != "" && role in {"witness", "refinery"}
    ensures Judged(Build(prefix, rig, role, "")) == Valid <==> rig[0] != '-'
  {
    assert IsRole(role);
    RoleClasses(role);
    assert Join([], '-') == "";
    hide *;
    BuildIsBody(prefix, rig, role, "");
    JudgedBody(prefix, Body(rig, role, ""));
    BodySegments(rig, role, "");
    FirstSegment(rig);
    JoinSplit(rig, '-');
    SolidOrSplit(role);
    SplitSize(rig);
    var before := Split(rig, '-');
    var parts := before + [role];
    assert Split(Body(rig, role, ""), '-') == parts && parts[0] == before[0];
    if |before| == 1 {
      assert parts == [before[0], role];
      JudgeTwo(before[0], role);
    } else {
      LastRoleAppend(before, [role]);
      OneRole(role);
      JudgePartsScans(parts);
      assert parts[..|before|] == before && parts[|before| + 1..] == [];
      JudgeWithRig(role, rig, "");
    }
  }

  lemma JudgeDog(name: string)
    ensures JudgeParts(["dog", name]) == Valid
    ensures name != "" ==> Judge("dog", "", name) == Valid
  {}

  lemma DogWord()
    ensures IsRole("dog") && Join([], '-') == ""
  {}

  /** An ID of one word after the prefix: the town's roles are valid, the others miss something. */
  lemma OneWordVerdict(prefix: string, word: string)
    requires Solid(prefix) && prefix != "" && Solid(word)
    ensures Judged(Build(prefix, "", word, "")) ==
            if word == "" then NoContent
            else if word in {"mayor", "deacon"} then Valid
            else if word == "dog" then NeedsName
            else if word in {"witness", "refinery", "crew", "polecat"} then NeedsRig
            else NoRole
  {
    JudgedBody(prefix, word);
    SolidOrSplit(word);
    hide Judged, Solid, Split;
  }

  /** An ID of two words after the prefix. */
  lemma TwoWordVerdict(prefix: string, first: string, word: string)
    requires Solid(prefix) && prefix != "" && Solid(first) && Solid(word) && first != ""
    ensures Judged(Build(prefix, first, word, "")) ==
            if first == "dog" || word in {"witness", "refinery"} then Valid
            else if word in {"crew", "polecat"} then NeedsName
            else if word in {"mayor", "deacon"} then TooMuch
            else NoRole
  {
    hide *;
    BuildIsBody(prefix, first, word, "");
    JudgedBody(prefix, Body(first, word, ""));
    BodySegments(first, word, "");
    SolidOrSplit(first);
    SolidOrSplit(word);
    assert [first] + [word] + [] == [first, word];
    JudgeTwoWords(first, word);
  }

  lemma JudgeTwoWords(first: string, word: string)
    requires first != ""
    ensures JudgeParts([first, word]) ==
            if first == "dog" || word in {"witness", "refinery"} then Valid
            else if word in {"crew", "polecat"} then NeedsName
            else if word in {"mayor", "deacon"} then TooMuch
            else NoRole
  {
    var parts := [first, word];
    assert parts[0] == first && parts[1] == word;
    hide LastRole, Judge, Join;
  }

  lemma JoinIsEmpty(parts: seq<string>)
    ensures Join(parts, '-') == "" <==> parts == [] || parts == [""]
  {}

  predicate NoRoleIn(parts: seq<string>) {
    forall s | s in parts :: s !in {"mayor", "deacon", "dog", "witness", "refinery", "crew", "polecat"}
  }

  lemma RolesAre(s: string)
    ensures IsRole(s) <==> s in {"mayor", "deacon", "dog", "witness", "refinery", "crew", "polecat"}
  {}

  lemma LastRoleAt(before: seq<string>, role: string, after: seq<string>)
    requires IsRole(role) && NoRoleIn(after)
    ensures LastRole(before + [role] + after) == |before|
  {
    LastRoleAppend(before + [role], after);
    LastRoleAppend(before, [role]);
    OneRole(role);
    NoRoleThere(after);
  }

  lemma NoRoleThere(parts: seq<string>)
    requires NoRoleIn(parts)
    ensures LastRole(parts) == -1
  {
    forall j | 0 <= j < |parts| ensures !IsRole(parts[j]) {
      RolesAre(parts[j]);
      assert parts[j] in parts;
      hide IsRole;
    }
  }

  lemma JudgedWithoutRole(parts: seq<string>)
    requires |parts| >= 3 && parts[0] != "" && LastRole(parts) == -1
    ensures JudgeParts(parts) == NoRole
  {
    hide IsRole, IsTownRole, IsDogRole, IsRigRole, IsNamedRole, LastRole, Judge, Join;
  }

  lemma JudgedSegments(prefix: string, parts: seq<string>)
    requires Solid(prefix) && prefix != "" && parts != [] && AllFree(parts, '-')
    ensures Judged(prefix + "-" + Join(parts, '-')) == JudgeParts(parts)
  {
    JudgedBody(prefix, Join(parts, '-'));
    SplitJoin(parts, '-');
    hide Judged, JudgeParts, Join, Split;
  }

  lemma JudgeIs(role: string, rig: string, name: string)
    requires IsRole(role)
    ensures Judge(role, rig, name) ==
            if role in {"mayor", "deacon"} then (if rig == "" && name == "" then Valid else TooMuch)
            else if role == "dog" then (if rig != "" then TooMuch else if name != "" then Valid else NeedsName)
            else if rig == "" then NeedsRig
            else if role in {"witness", "refinery"} then (if name == "" then Valid else TooMuch)
            else if name != "" then Valid else NeedsName
  {
    RolesAre(role);
  }

  /** An ID of three words or more after the prefix: its last role decides, with what stands
      before it and after it. */
  lemma ScannedVerdict(prefix: string, before: seq<string>, role: string, after: seq<string>)
    requires Solid(prefix) && prefix != "" && AllFree(before + [role] + after, '-')
    requires |before| + |after| >= 2 && (before != [] ==> before[0] != "")
    requires role in {"mayor", "deacon", "dog", "witness", "refinery", "crew", "polecat"} && NoRoleIn(after)
    ensures Judged(prefix + "-" + Join(before + [role] + after, '-')) ==
            if role in {"mayor", "deacon"} then TooMuch
            else if role == "dog" then (if before == [] then Valid else TooMuch)
            else if before == [] then NeedsRig
            else if role in {"witness", "refinery"} then (if after == [] || after == [""] then Valid else TooMuch)
            else if after == [] || after == [""] then NeedsName else Valid
  {
    var parts := before + [role] + after;
    RolesAre(role);
    LastRoleAt(before, role, after);
    hide IsRole, Join, LastRole, Judge, Judged, JudgeParts, NoRoleIn, AllFree;
    JudgedSegments(prefix, parts);
    JudgePartsScans(parts);
    JoinIsEmpty(before);
    JoinIsEmpty(after);
    assert parts[..|before|] == before && parts[|before| + 1..] == after && parts[|before|] == role;
    assert role != "";
    JudgeIs(role, Join(before, '-'), Join(after, '-'));
  }

  /** One without a role word is refused. */
  lemma NoRoleVerdict(prefix: string, parts: seq<string>)
    requires Solid(prefix) && prefix != "" && AllFree(parts, '-') && |parts| >= 3 && parts[0] != "" && NoRoleIn(parts)
    ensures Judged(prefix + "-" + Join(parts, '-')) == NoRole
  {
    JudgedSegments(prefix, parts);
    NoRoleThere(parts);
    JudgedWithoutRole(parts);
    hide JudgeParts, NoRoleIn, IsRole, Join, Judge, Judged, LastRole;
  }

  /** Without a prefix or without anything there is no ID. */
  lemma NoPrefixVerdict(id: string)
    ensures Judged(id) == NoID <==> id == ""
    ensures Judged(id) == NoPrefix <==> id != "" && (Solid(id) || id[0] == '-')
  {
    hide JudgeParts;
    if id != "" && IndexOf(id, '-') > 0 {
      NotPrefixless(Split(id[IndexOf(id, '-') + 1..], '-'));
    }
  }

  lemma NotPrefixless(parts: seq<string>)
    requires |parts| >= 1
    ensures JudgeParts(parts) != NoID && JudgeParts(parts) != NoPrefix
  {
    hide LastRole, Join, IsTownRole, IsDogRole, IsRigRole, IsNamedRole;
  }

  /** A dog with a name of several segments. */
  lemma DogScanned(name: string)
    requires !Solid(name)
    ensures JudgeParts(["dog"] + Split(name, '-')) == Valid <==> NameIsHarmless(name)
  {
    hide *;
    var parts := ["dog"] + Split(name, '-');
    DogWord();
    SolidOrSplit(name);
    JudgeDog(name);
    ScanVerdict([], "dog", name);
    HarmlessMeans(name);
    NotSolidNotEmpty(name);
    assert [] + ["dog"] + Split(name, '-') == parts && parts[0] == "dog";
    JudgePartsScans(parts);
  }

  /** The IDs of dogs are valid for hyphen-free names and for harmless ones. */
  lemma DogIdIsValidIff(prefix: string, name: string)
    requires Solid(prefix) && prefix != ""
    ensures Judged(BuildDog(prefix, name)) == Valid <==> Solid(name) || NameIsHarmless(name)
  {
    hide *;
    DogBody(prefix, name);
    JudgedBody(prefix, "dog-" + name);
    if Solid(name) {
      SolidOrSplit(name);
      JudgeDog(name);
      assert ["dog"] + [name] == ["dog", name];
    } else {
      DogScanned(name);
    }
  }

  lemma NotSolidNotEmpty(name: string)
    ensures !Solid(name) ==> name != ""
  {}

  /** Validation scans from the right and parsing reads from the left: a valid ID of a named
      agent is misread exactly when its rig has a hyphen (or is a dog's rig with a hyphenated name). */
  lemma ValidButMisread(prefix: string, rig: string, role: string, name: string)
    requires Solid(prefix) && 2 <= |prefix| <= 3 && role in {"crew", "polecat"} && name != "" && rig != ""
    requires Judged(Build(prefix, rig, role, name)) == Valid
    ensures Parse(Build(prefix, rig, role, name)) != Some(Agent(rig, role, name)) <==>
            !Solid(rig) || (rig == "dog" && !Solid(name))
  {
    RoleClasses(role);
    BuildThenParseIff(prefix, rig, role, name);
    hide Build, Parse, Judged, IsNamedRole, IsRole, Solid;
  }
}
