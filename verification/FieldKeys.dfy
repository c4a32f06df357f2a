/** Which keys stand for which fields, in which spellings, and what one line of text says. */
module FieldKeys {
  import opened Text
  import opened Numbers
  import opened Lines
  import opened FieldBlock
  import opened FieldSheet
  import Att = AttachmentFields
  import MR = MergeRequestFields
  import AF = AgentFields
  import EF = EscalationFields

  // ----- spellings -----

  /** Each underscore as a hyphen. */
  function Dashed(key: string): string {
    seq(|key|, i requires 0 <= i < |key| => if key[i] == '_' then '-' else key[i])
  }

  /** Without the underscores. */
  function Packed(key: string): string {
    if key == "" then "" else (if key[0] == '_' then "" else [key[0]]) + Packed(key[1..])
  }

  predicate Spells(key: string, written: string) {
    key == written || key == Dashed(written) || key == Packed(written)
  }

  lemma {:induction false} PackedFree(a: string)
    requires Free(a, '_')
    ensures Packed(a) == a && Dashed(a) == a
  {
    if a != "" {
      PackedFree(a[1..]);
      assert a == [a[0]] + a[1..];
    }
  }

  lemma {:induction false} PackedAt(a: string, b: string)
    requires Free(a, '_')
    ensures Packed(a + "_" + b) == a + Packed(b) && Dashed(a + "_" + b) == a + "-" + Dashed(b)
  {
    if a == "" {
      assert (a + "_" + b)[1..] == b && a + Packed(b) == Packed(b);
    } else {
      PackedAt(a[1..], b);
      assert (a + "_" + b)[1..] == a[1..] + "_" + b;
      assert a + Packed(b) == [a[0]] + (a[1..] + Packed(b));
    }
    assert |Dashed(a + "_" + b)| == |a + "-" + Dashed(b)|;
  }

  /** A key of two words, and its spellings. */
  lemma TwoWords(a: string, b: string, written: string, dashed: string, packed: string)
    requires Free(a, '_') && Free(b, '_') && written == a + "_" + b && dashed == a + "-" + b && packed == a + b
    ensures Dashed(written) == dashed && Packed(written) == packed
  {
    PackedAt(a, b);
    PackedFree(b);
  }

  /** One of three words. */
  lemma ThreeWords(a: string, b: string, c: string, written: string, dashed: string, packed: string)
    requires Free(a, '_') && Free(b, '_') && Free(c, '_')
    requires written == a + "_" + (b + "_" + c) && dashed == a + "-" + (b + "-" + c) && packed == a + (b + c)
    ensures Dashed(written) == dashed && Packed(written) == packed
  {
    PackedAt(a, b + "_" + c);
    TwoWords(b, c, b + "_" + c, b + "-" + c, b + c);
  }

  lemma AttachmentSpellings()
    ensures Dashed("attached_molecule") == "attached-molecule" && Packed("attached_molecule") == "attachedmolecule"
    ensures Dashed("attached_at") == "attached-at" && Packed("attached_at") == "attachedat"
    ensures Dashed("attached_args") == "attached-args" && Packed("attached_args") == "attachedargs"
    ensures Dashed("dispatched_by") == "dispatched-by" && Packed("dispatched_by") == "dispatchedby"
    ensures Dashed("no_merge") == "no-merge" && Packed("no_merge") == "nomerge"
  {
    hide Dashed, Packed;
    TwoWords("attached", "molecule", "attached_molecule", "attached-molecule", "attachedmolecule");
    TwoWords("attached", "at", "attached_at", "attached-at", "attachedat");
    TwoWords("attached", "args", "attached_args", "attached-args", "attachedargs");
    TwoWords("dispatched", "by", "dispatched_by", "dispatched-by", "dispatchedby");
    TwoWords("no", "merge", "no_merge", "no-merge", "nomerge");
  }

  /** The attachment's keys: each in three spellings, and nothing else. */
  lemma AttachmentKeyIff(key: string)
    ensures Att.FieldOf(key) == Some(Att.Molecule) <==> Spells(key, "attached_molecule")
    ensures Att.FieldOf(key) == Some(Att.At) <==> Spells(key, "attached_at")
    ensures Att.FieldOf(key) == Some(Att.Args) <==> Spells(key, "attached_args")
    ensures Att.FieldOf(key) == Some(Att.DispatchedBy) <==> Spells(key, "dispatched_by")
    ensures Att.FieldOf(key) == Some(Att.NoMerge) <==> Spells(key, "no_merge")
  {
    AttachmentSpellings();
    hide Dashed, Packed;
  }

  lemma ShortSpellings()
    ensures Dashed("source_issue") == "source-issue" && Packed("source_issue") == "sourceissue"
    ensures Dashed("merge_commit") == "merge-commit" && Packed("merge_commit") == "mergecommit"
    ensures Dashed("close_reason") == "close-reason" && Packed("close_reason") == "closereason"
    ensures Dashed("agent_bead") == "agent-bead" && Packed("agent_bead") == "agentbead"
    ensures Dashed("retry_count") == "retry-count" && Packed("retry_count") == "retrycount"
    ensures Dashed("convoy_id") == "convoy-id" && Packed("convoy_id") == "convoyid"
  {
    hide Dashed, Packed;
    TwoWords("source", "issue", "source_issue", "source-issue", "sourceissue");
    TwoWords("merge", "commit", "merge_commit", "merge-commit", "mergecommit");
    TwoWords("close", "reason", "close_reason", "close-reason", "closereason");
    TwoWords("agent", "bead", "agent_bead", "agent-bead", "agentbead");
    TwoWords("retry", "count", "retry_count", "retry-count", "retrycount");
    TwoWords("convoy", "id", "convoy_id", "convoy-id", "convoyid");
  }

  lemma ShaSpellings()
    ensures Dashed("last_conflict_sha") == "last-conflict-sha" && Packed("last_conflict_sha") == "lastconflictsha"
  {
    hide Dashed, Packed;
    ThreeWords("last", "conflict", "sha", "last_conflict_sha", "last-conflict-sha", "lastconflictsha");
  }

  lemma TaskSpellings()
    ensures Dashed("conflict_task_id") == "conflict-task-id" && Packed("conflict_task_id") == "conflicttaskid"
  {
    hide Dashed, Packed;
    ThreeWords("conflict", "task", "id", "conflict_task_id", "conflict-task-id", "conflicttaskid");
  }

  lemma CreatedSpellings()
    ensures Dashed("convoy_created_at") == "convoy-created-at" && Packed("convoy_created_at") == "convoycreatedat"
  {
    hide Dashed, Packed;
    ThreeWords("convoy", "created", "at", "convoy_created_at", "convoy-created-at", "convoycreatedat");
  }

  lemma PlainSpellings()
    ensures Dashed("branch") == Packed("branch") == "branch" && Dashed("target") == Packed("target") == "target"
    ensures Dashed("worker") == Packed("worker") == "worker" && Dashed("rig") == Packed("rig") == "rig"
  {
    hide Dashed, Packed;
    PackedFree("branch");
    PackedFree("target");
    PackedFree("worker");
    PackedFree("rig");
  }

  /** The merge request's keys of one or two words. */
  lemma MergeRequestKeyIff(key: string)
    ensures MR.FieldOf(key) == Some(MR.Branch) <==> Spells(key, "branch")
    ensures MR.FieldOf(key) == Some(MR.Target) <==> Spells(key, "target")
    ensures MR.FieldOf(key) == Some(MR.SourceIssue) <==> Spells(key, "source_issue")
    ensures MR.FieldOf(key) == Some(MR.Worker) <==> Spells(key, "worker")
    ensures MR.FieldOf(key) == Some(MR.Rig) <==> Spells(key, "rig")
    ensures MR.FieldOf(key) == Some(MR.MergeCommit) <==> Spells(key, "merge_commit")
    ensures MR.FieldOf(key) == Some(MR.CloseReason) <==> Spells(key, "close_reason")
    ensures MR.FieldOf(key) == Some(MR.AgentBead) <==> Spells(key, "agent_bead")
    ensures MR.FieldOf(key) == Some(MR.RetryCount) <==> Spells(key, "retry_count")
  {
    PlainSpellings();
    ShortSpellings();
    hide Dashed, Packed;
  }

  /** And those of the conflict and the convoy, which has a short spelling of its own. */
  lemma ConvoyKeyIff(key: string)
    ensures MR.FieldOf(key) == Some(MR.LastConflictSHA) <==> Spells(key, "last_conflict_sha")
    ensures MR.FieldOf(key) == Some(MR.ConflictTaskID) <==> Spells(key, "conflict_task_id")
    ensures MR.FieldOf(key) == Some(MR.ConvoyID) <==> Spells(key, "convoy_id") || key == "convoy"
    ensures MR.FieldOf(key) == Some(MR.ConvoyCreatedAt) <==> Spells(key, "convoy_created_at")
  {
    ShortSpellings();
    ShaSpellings();
    TaskSpellings();
    CreatedSpellings();
    hide Dashed, Packed;
  }

  /** The agent's keys have one spelling. */
  lemma AgentKeyIff(key: string)
    ensures AF.FieldOf(key) == Some(AF.RoleType) <==> key == "role_type"
    ensures AF.FieldOf(key) == Some(AF.Rig) <==> key == "rig"
    ensures AF.FieldOf(key) == Some(AF.AgentState) <==> key == "agent_state"
    ensures AF.FieldOf(key) == Some(AF.HookBead) <==> key == "hook_bead"
    ensures AF.FieldOf(key) == Some(AF.CleanupStatus) <==> key == "cleanup_status"
    ensures AF.FieldOf(key) == Some(AF.ActiveMR) <==> key == "active_mr"
    ensures AF.FieldOf(key) == Some(AF.NotificationLevel) <==> key == "notification_level"
  {}

  /** So have the escalation's. */
  lemma EscalationKeyIff(key: string)
    ensures EF.FieldOf(key) == Some(EF.Severity) <==> key == "severity"
    ensures EF.FieldOf(key) == Some(EF.Reason) <==> key == "reason"
    ensures EF.FieldOf(key) == Some(EF.Source) <==> key == "source"
    ensures EF.FieldOf(key) == Some(EF.EscalatedBy) <==> key == "escalated_by"
    ensures EF.FieldOf(key) == Some(EF.EscalatedAt) <==> key == "escalated_at"
    ensures EF.FieldOf(key) == Some(EF.AckedBy) <==> key == "acked_by"
    ensures EF.FieldOf(key) == Some(EF.AckedAt) <==> key == "acked_at"
    ensures EF.FieldOf(key) == Some(EF.ClosedBy) <==> key == "closed_by"
    ensures EF.FieldOf(key) == Some(EF.ClosedReason) <==> key == "closed_reason"
    ensures EF.FieldOf(key) == Some(EF.RelatedBead) <==> key == "related_bead"
    ensures EF.FieldOf(key) == Some(EF.OriginalSeverity) <==> key == "original_severity"
    ensures EF.FieldOf(key) == Some(EF.Count) <==> key == "reescalation_count"
    ensures EF.FieldOf(key) == Some(EF.LastAt) <==> key == "last_reescalated_at"
    ensures EF.FieldOf(key) == Some(EF.LastBy) <==> key == "last_reescalated_by"
  {}

  // ----- one line -----

  /** Lower-case words joined by underscores or hyphens. */
  predicate KeyLike(key: string) {
    key != "" && forall c | c in key :: 'a' <= c <= 'z' || c == '_' || c == '-'
  }

  /** `key: value`, the key in any case and white space around both. */
  ghost predicate IsEntry(line: string, key: string, v: string) {
    && v != "" && Free(line, '\n')
    && exists a, word, b, rest :: IsLine(line, a, word, b, rest) && InCase(word, key) && TrimSpace(rest) == v
  }

  predicate IsLine(line: string, a: string, word: string, b: string, rest: string) {
    line == a + ((word + b) + ([':'] + rest)) && AllSpace(a) && AllSpace(b)
  }

  lemma CasedKey(word: string, key: string)
    requires KeyLike(key) && InCase(word, key)
    ensures word != "" && (forall c | c in word :: !IsSpace(c) && c != ':') && ToLower(word) == key
  {
    assert forall i | 0 <= i < |key| :: key[i] in key;
    assert forall i | 0 <= i < |word| :: !IsSpace(word[i]) && word[i] != ':';
    assert IsLower(key);
    InCaseLowers(word, key);
  }

  lemma EntryReads(line: string, key: string, v: string)
    requires KeyLike(key) && IsEntry(line, key, v)
    ensures Entry(line) == Some((key, v)) && Split(line, '\n') == [line]
  {
    var a, word, b, rest :| IsLine(line, a, word, b, rest) && InCase(word, key) && TrimSpace(rest) == v;
    SplitFree(line, '\n');
    CasedKey(word, key);
    assert word[0] in word && word[|word| - 1] in word;
    SpacedTrims("", word, b);
    hide Entry, TrimSpace, ToLower, Split, KeyLike, InCase;
    assert "" + (word + b) == word + b && (word + b)[0] == word[0];
    assert Free(word + b, ':');
    EntryOfLine(line, a, word + b, rest);
  }

  lemma {:induction false} PackedLetters(w: string)
    ensures forall c | c in Packed(w) :: c in w && c != '_'
    ensures w != "" && w[0] != '_' ==> Packed(w) != ""
  {
    if w != "" {
      PackedLetters(w[1..]);
    }
  }

  lemma SpelledIsKeyLike(key: string, written: string)
    requires Spells(key, written) && KeyLike(written) && written[0] != '_'
    ensures KeyLike(key)
  {
    PackedLetters(written);
    assert forall i | 0 <= i < |written| :: Dashed(written)[i] == (if written[i] == '_' then '-' else written[i]) && written[i] in written;
  }

  lemma AttachmentLine(line: string, key: string, v: string, f: Att.Field)
    requires KeyLike(key) && IsEntry(line, key, v)
    ensures Att.Raw(Split(line, '\n'), f) == if Att.FieldOf(key) == Some(f) then Some(v) else None
  {
    EntryReads(line, key, v);
    hide Att.FieldOf, Entry, IsEntry;
    Att.RawNext([line], 0, f);
    assert [line][..1] == [line] && [line][..0] == [];
  }

  lemma AttachmentKeysAreKeyLike()
    ensures KeyLike("attached_molecule") && KeyLike("attached_at") && KeyLike("attached_args")
    ensures KeyLike("dispatched_by") && KeyLike("no_merge")
  {}

  /** What one line says as an attachment: the key in any case and in any of its spellings. */
  lemma AttachmentLineReads(line: string, key: string, v: string)
    requires IsEntry(line, key, v)
    ensures Spells(key, "attached_molecule") ==> Att.Parsed(line) == Some(Att.Attachment(v, "", "", "", false))
    ensures Spells(key, "attached_at") ==> Att.Parsed(line) == Some(Att.Attachment("", v, "", "", false))
    ensures Spells(key, "attached_args") ==> Att.Parsed(line) == Some(Att.Attachment("", "", v, "", false))
    ensures Spells(key, "dispatched_by") ==> Att.Parsed(line) == Some(Att.Attachment("", "", "", v, false))
    ensures Spells(key, "no_merge") ==> Att.Parsed(line) == Some(Att.Attachment("", "", "", "", InCase(v, "true")))
  {
    AttachmentKeysAreKeyLike();
    AttachmentKeyIff(key);
    hide Att.FieldOf, IsEntry, Split, Att.Raw, KeyLike, Spells, InCase;
    if Att.FieldOf(key).Some? {
      AttachmentFieldKey(key);
      forall f: Att.Field ensures Att.Raw(Split(line, '\n'), f) == if Att.FieldOf(key) == Some(f) then Some(v) else None {
        AttachmentLine(line, key, v, f);
      }
      TrueInCase(v);
      assert ToLower("") == "";
      hide ToLower;
    }
  }

  lemma TrueInCase(v: string)
    ensures InCase(v, "true") <==> ToLower(v) == "true"
  {
    if |v| == 4 {
      assert forall i | 0 <= i < 4 :: ToLower(v)[i] == LowerChar(v[i]);
      assert "true"[0] == 't' && "true"[1] == 'r' && "true"[2] == 'u' && "true"[3] == 'e';
    }
  }

  lemma AttachmentFieldKey(key: string)
    requires Att.FieldOf(key).Some?
    ensures KeyLike(key)
  {
    hide *;
    AttachmentKeysAreKeyLike();
    AttachmentKeyIff(key);
    Letters();
    match Att.FieldOf(key).value {
      case Molecule => SpelledIsKeyLike(key, "attached_molecule");
      case At => SpelledIsKeyLike(key, "attached_at");
      case Args => SpelledIsKeyLike(key, "attached_args");
      case DispatchedBy => SpelledIsKeyLike(key, "dispatched_by");
      case NoMerge => SpelledIsKeyLike(key, "no_merge");
    }
  }

  lemma Letters()
    ensures "attached_molecule"[0] != '_' && "attached_at"[0] != '_' && "attached_args"[0] != '_'
    ensures "dispatched_by"[0] != '_' && "no_merge"[0] != '_'
  {}

  // ----- one line of a merge request -----

  lemma ShortKeysAreKeyLike()
    ensures KeyLike("branch") && KeyLike("target") && KeyLike("worker") && KeyLike("rig") && KeyLike("source_issue")
    ensures KeyLike("merge_commit") && KeyLike("close_reason")
    ensures "branch"[0] == 'b' && "target"[0] == 't' && "worker"[0] == 'w' && "rig"[0] == 'r' && "source_issue"[0] == 's'
    ensures "merge_commit"[0] == 'm' && "close_reason"[0] == 'c'
  {}

  lemma LongKeysAreKeyLike()
    ensures KeyLike("agent_bead") && KeyLike("retry_count") && KeyLike("last_conflict_sha") && KeyLike("conflict_task_id")
    ensures KeyLike("convoy_id") && KeyLike("convoy_created_at") && KeyLike("convoy")
    ensures "agent_bead"[0] == 'a' && "retry_count"[0] == 'r' && "last_conflict_sha"[0] == 'l' && "conflict_task_id"[0] == 'c'
    ensures "convoy_id"[0] == 'c' && "convoy_created_at"[0] == 'c'
  {}

  lemma MergeRequestFieldKey(key: string)
    requires MR.FieldOf(key).Some?
    ensures KeyLike(key)
  {
    hide *;
    ShortKeysAreKeyLike();
    LongKeysAreKeyLike();
    MergeRequestKeyIff(key);
    ConvoyKeyIff(key);
    match MR.FieldOf(key).value {
      case Branch => SpelledIsKeyLike(key, "branch");
      case Target => SpelledIsKeyLike(key, "target");
      case SourceIssue => SpelledIsKeyLike(key, "source_issue");
      case Worker => SpelledIsKeyLike(key, "worker");
      case Rig => SpelledIsKeyLike(key, "rig");
      case MergeCommit => SpelledIsKeyLike(key, "merge_commit");
      case CloseReason => SpelledIsKeyLike(key, "close_reason");
      case AgentBead => SpelledIsKeyLike(key, "agent_bead");
      case RetryCount => SpelledIsKeyLike(key, "retry_count");
      case LastConflictSHA => SpelledIsKeyLike(key, "last_conflict_sha");
      case ConflictTaskID => SpelledIsKeyLike(key, "conflict_task_id");
      case ConvoyID => if key != "convoy" { SpelledIsKeyLike(key, "convoy_id"); }
      case ConvoyCreatedAt => SpelledIsKeyLike(key, "convoy_created_at");
    }
  }

  lemma MergeRequestLine(line: string, key: string, v: string, f: MR.Field)
    requires KeyLike(key) && IsEntry(line, key, v)
    ensures MR.Raw(Split(line, '\n'), f) == if MR.FieldOf(key) == Some(f) && MR.Decode(f)(v).Some? then Some(v) else None
  {
    EntryReads(line, key, v);
    hide MR.FieldOf, Entry, IsEntry, MR.Decode;
    MR.RawNext([line], 0, f);
    assert [line][..1] == [line] && [line][..0] == [];
  }

  /** What one line says as a merge request: which key is which field, MergeRequestKeyIff and
      ConvoyKeyIff say. */
  lemma MergeRequestLineReads(line: string, key: string, v: string)
    requires IsEntry(line, key, v) && MR.FieldOf(key).Some?
    ensures MR.Parsed(line) ==
            if MR.FieldOf(key) != Some(MR.RetryCount) then Some(MR.MergeRequest(map[MR.FieldOf(key).value := v], 0))
            else if ScanInt(v).Some? then Some(MR.MergeRequest(map[], ScanInt(v).value))
            else None
  {
    var f := MR.FieldOf(key).value;
    MergeRequestFieldKey(key);
    hide MR.FieldOf, IsEntry, Split, MR.Raw, KeyLike, ScanInt;
    var lines := Split(line, '\n');
    forall g: MR.Field ensures MR.Raw(lines, g) == if g == f && MR.Decode(g)(v).Some? then Some(v) else None {
      MergeRequestLine(line, key, v, g);
    }
    assert v != "" && ScanInt("").None? by { NoNumber(line, key, v); }
    if MR.Decode(f)(v).Some? {
      assert MR.Raw(lines, f).Some?;
    }
    assert MR.HasFields(lines) <==> MR.Decode(f)(v).Some?;
    if f != MR.RetryCount {
      assert MR.Gathered(lines).texts == map[f := v];
    } else {
      assert MR.Gathered(lines).texts == map[];
    }
  }

  lemma NoNumber(line: string, key: string, v: string)
    requires IsEntry(line, key, v)
    ensures v != "" && ScanInt("").None?
  {}

  // ----- one line of an agent bead -----

  lemma AgentFieldKey(key: string)
    requires AF.FieldOf(key).Some?
    ensures KeyLike(key)
  {}

  lemma AgentLine(line: string, key: string, v: string, f: AF.Field)
    requires KeyLike(key) && IsEntry(line, key, v)
    ensures AF.Raw(Split(line, '\n'), f) == if AF.FieldOf(key) == Some(f) then Some(if v == "null" then "" else v) else None
  {
    EntryReads(line, key, v);
    hide AF.FieldOf, Entry, IsEntry;
    AF.RawNext([line], 0, f);
    assert [line][..1] == [line] && [line][..0] == [];
  }

  /** What one line says of an agent: the key in any case, and the word null for nothing. */
  lemma AgentLineReads(line: string, key: string, v: string)
    requires IsEntry(line, key, v)
    ensures var a, x := AF.Parsed(line), if v == "null" then "" else v;
            && (key == "role_type" ==> a == AF.EMPTY.(roleType := x))
            && (key == "rig" ==> a == AF.EMPTY.(rig := x))
            && (key == "agent_state" ==> a == AF.EMPTY.(agentState := x))
            && (key == "hook_bead" ==> a == AF.EMPTY.(hookBead := x))
            && (key == "cleanup_status" ==> a == AF.EMPTY.(cleanupStatus := x))
            && (key == "active_mr" ==> a == AF.EMPTY.(activeMR := x))
            && (key == "notification_level" ==> a == AF.EMPTY.(notificationLevel := x))
  {
    AgentKeyIff(key);
    hide AF.FieldOf, IsEntry, Split, AF.Raw, KeyLike;
    if AF.FieldOf(key).Some? {
      AgentFieldKey(key);
      forall f: AF.Field
        ensures AF.Raw(Split(line, '\n'), f) == if AF.FieldOf(key) == Some(f) then Some(if v == "null" then "" else v) else None
      {
        AgentLine(line, key, v, f);
      }
    }
  }
}
