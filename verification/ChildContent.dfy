/** What the issues that an instantiation makes look like, and what their readers get. */
module ChildContent {
  import opened Text
  import opened StepGraph
  import opened StepParser
  import opened Instantiation

  // ----- the description -----

  /** The text, a blank line if there is a text, and these lines. */
  predicate Describes(description: string, text: string, rows: seq<string>) {
    description == (if text == "" then "" else text + "\n\n") + Join(rows, '\n')
  }

  lemma JoinTwo(a: string, b: string, c: string)
    ensures Join([a, b], '\n') == a + "\n" + b && Join([a, b, c], '\n') == a + "\n" + b + "\n" + c
  {
    assert [a, b][1..] == [b] && [a, b, c][1..] == [b, c] && [b, c][1..] == [c];
    assert Join([b, c], '\n') == b + ['\n'] + c;
    assert a + "\n" + b + "\n" + c == a + ['\n'] + (b + ['\n'] + c);
  }

  function TierRow(tier: string): seq<string> {
    if tier == "" then [] else ["tier: " + tier]
  }

  lemma ChildDescribes(step: Step, molecule: Id, parent: Parent, expand: string -> string)
    ensures Describes(ChildOf(step, molecule, parent, expand).description, expand(step.instructions),
                      ["instantiated_from: " + molecule, "step: " + step.ref] + TierRow(step.tier))
  {
    var a, b, c := "instantiated_from: " + molecule, "step: " + step.ref, "tier: " + step.tier;
    JoinTwo(a, b, c);
    hide Join;
    assert [a, b] + [] == [a, b] && [a, b] + [c] == [a, b, c];
    assert "\nstep: " + step.ref == "\n" + b && "\ntier: " + step.tier == "\n" + c;
  }

  lemma TemplateDescribes(t: TemplateIssue, molecule: Id, parent: Parent, expand: string -> string)
    ensures Describes(ChildOfTemplate(t, molecule, parent, expand).description, expand(t.description),
                      ["instantiated_from: " + molecule, "template_step: " + t.id])
  {
    var a, b := "instantiated_from: " + molecule, "template_step: " + t.id;
    JoinTwo(a, b, "");
    hide Join;
    assert "\ntemplate_step: " + t.id == "\n" + b;
  }

  /** The lines of such a description. */
  lemma DescribedLines(description: string, text: string, rows: seq<string>)
    requires Describes(description, text, rows) && rows != [] && AllFree(rows, '\n')
    ensures Split(description, '\n') == (if text == "" then [] else Split(text, '\n') + [""]) + rows
  {
    hide *;
    var tail := Join(rows, '\n');
    SplitJoin(rows, '\n');
    DescriptionIs(description, text, rows);
    if text != "" {
      SplitAppend(text, ['\n'] + tail, '\n');
      SplitAppend("", tail, '\n');
      EmptyLine(tail);
      assert Split(text, '\n') + ([""] + rows) == Split(text, '\n') + [""] + rows;
    } else {
      assert [] + rows == rows;
    }
  }

  lemma DescriptionIs(description: string, text: string, rows: seq<string>)
    requires Describes(description, text, rows)
    ensures var tail := Join(rows, '\n');
            description == if text == "" then tail else text + ['\n'] + (['\n'] + tail)
  {
    hide Join;
    var tail := Join(rows, '\n');
    assert "" + tail == tail && text + "\n\n" + tail == text + ['\n'] + (['\n'] + tail);
  }

  lemma EmptyLine(tail: string)
    ensures "" + ['\n'] + tail == ['\n'] + tail && Split("", '\n') == [""]
  {}

  // ----- the issues -----

  /** What the child of one step is. */
  predicate IsChildOf(c: Issue, step: Step, molecule: Id, parent: Parent, expand: string -> string) {
    && c.parent == parent.id && c.priority == parent.priority && c.kind == "task" && c.title == step.title
    && c.status == Open
    && Describes(c.description, expand(step.instructions),
                 ["instantiated_from: " + molecule, "step: " + step.ref] + TierRow(step.tier))
  }

  /** What the child of one template issue is. */
  predicate IsChildOfTemplate(c: Issue, t: TemplateIssue, molecule: Id, parent: Parent, expand: string -> string) {
    && c.parent == parent.id && c.priority == parent.priority && c.title == t.title
    && c.kind == (if t.kind != "" then t.kind else "task") && c.status == Open
    && Describes(c.description, expand(t.description), ["instantiated_from: " + molecule, "template_step: " + t.id])
  }

  predicate MadeIssues(r: Outcome) {
    r.Instantiated? || r.WiringFailed? || r.CreationFailed?
  }

  lemma ResultCreates(r: Outcome, nodes: seq<Node>, opts: seq<CreateOptions>,
                      issues0: map<Id, Issue>, blocks0: set<(Id, Id)>, issues1: map<Id, Issue>, blocks1: set<(Id, Id)>)
    requires Result(r, nodes, opts, issues0, blocks0, issues1, blocks1) && MadeIssues(r)
    ensures |r.created| <= |opts| && forall i | 0 <= i < |r.created| :: r.created[i] == Created(r.created[i].id, opts[i])
    ensures forall id | id in issues1 && id !in issues0 :: exists c | c in r.created :: issues1[id].(status := Open) == c
  {
    if r.CreationFailed? {
      forall id | id in issues1 && id !in issues0 ensures exists c | c in r.created :: issues1[id].(status := Open) == c {
        var c :| c in r.created && c.id == id;
      }
    } else {
      AddAllFresh(issues0, r.created, opts);
      assert opts[..|opts|] == opts;
      hide AddAll;
      forall id | id in issues1 && id !in issues0 ensures exists c | c in r.created :: issues1[id].(status := Open) == c {
        var c :| c in r.created && c.id == id;
      }
    }
  }

  /** Every child of a molecule's steps is what its step says, hangs under the parent, and no other
      issue is new: none hangs under the molecule unless that is the parent. */
  lemma ChildrenAre(r: Outcome, steps: seq<Step>, molecule: Id, parent: Parent, expand: string -> string,
                    issues0: map<Id, Issue>, blocks0: set<(Id, Id)>, issues1: map<Id, Issue>, blocks1: set<(Id, Id)>)
    requires MadeIssues(r)
    requires Result(r, NodesOf(steps), ChildrenOf(steps, molecule, parent, expand), issues0, blocks0, issues1, blocks1)
    ensures |r.created| <= |steps| &&
            forall i | 0 <= i < |r.created| :: IsChildOf(r.created[i], steps[i], molecule, parent, expand)
    ensures forall id | id in issues1 && id !in issues0 :: issues1[id].parent == parent.id
  {
    var opts := ChildrenOf(steps, molecule, parent, expand);
    ResultCreates(r, NodesOf(steps), opts, issues0, blocks0, issues1, blocks1);
    hide Result, Describes;
    forall i | 0 <= i < |r.created| ensures IsChildOf(r.created[i], steps[i], molecule, parent, expand) {
      assert r.created[i] == Created(r.created[i].id, opts[i]) && opts[i] == ChildOf(steps[i], molecule, parent, expand);
      ChildDescribes(steps[i], molecule, parent, expand);
    }
  }

  /** The same for template issues, with their own kinds. */
  lemma TemplateChildrenAre(r: Outcome, ts: seq<TemplateIssue>, molecule: Id, parent: Parent, expand: string -> string,
                            issues0: map<Id, Issue>, blocks0: set<(Id, Id)>, issues1: map<Id, Issue>, blocks1: set<(Id, Id)>)
    requires MadeIssues(r)
    requires Result(r, TemplateNodes(ts), ChildrenOfTemplates(ts, molecule, parent, expand), issues0, blocks0, issues1, blocks1)
    ensures |r.created| <= |ts| &&
            forall i | 0 <= i < |r.created| :: IsChildOfTemplate(r.created[i], ts[i], molecule, parent, expand)
    ensures forall id | id in issues1 && id !in issues0 :: issues1[id].parent == parent.id
  {
    var opts := ChildrenOfTemplates(ts, molecule, parent, expand);
    ResultCreates(r, TemplateNodes(ts), opts, issues0, blocks0, issues1, blocks1);
    hide Result, Describes;
    forall i | 0 <= i < |r.created| ensures IsChildOfTemplate(r.created[i], ts[i], molecule, parent, expand) {
      assert r.created[i] == Created(r.created[i].id, opts[i]) && opts[i] == ChildOfTemplate(ts[i], molecule, parent, expand);
      TemplateDescribes(ts[i], molecule, parent, expand);
    }
  }

  /** The children of template issues with distinct IDs depend on each other as the templates do. */
  lemma TemplateEdges(ts: seq<TemplateIssue>, opts: seq<CreateOptions>, created: seq<Issue>,
                      issues0: map<Id, Issue>, blocks0: set<(Id, Id)>,
                      issues1: map<Id, Issue>, blocks1: set<(Id, Id)>, i: nat, j: nat)
    requires InstanceOf(TemplateNodes(ts), opts, created, issues0, blocks0, issues1, blocks1)
    requires (forall k, l | 0 <= k < l < |ts| :: ts[k].id != ts[l].id) && WithinDatabase(issues0, blocks0)
    requires i < |ts| && j < |ts|
    ensures (created[i].id, created[j].id) in blocks1 <==> ts[j].id in ts[i].dependsOn
  {
    assert forall k | 0 <= k < |ts| :: Keys(TemplateNodes(ts))[k] == ts[k].id;
    hide InstanceOf, WithinDatabase;
    Isomorphism(TemplateNodes(ts), opts, created, issues0, blocks0, issues1, blocks1, i, j);
  }

  // ----- reading the molecule back -----

  const PREFIX := "instantiated_from:"

  /** What a line says about the molecule. */
  function Mentions(line: string): Option<string> {
    var t := TrimSpace(line);
    if PREFIX <= t then Some(TrimSpace(t[|PREFIX|..])) else None
  }

  /** The first mention. */
  function FirstMention(lines: seq<string>): Option<string> {
    if lines == [] then None
    else if Mentions(lines[0]).Some? then Mentions(lines[0])
    else FirstMention(lines[1..])
  }

  /** `parseMoleculeMetadata`, and `extractMoleculeID`. */
  method ParseMoleculeMetadata(description: string) returns (r: string)
    ensures r == FirstMention(Split(description, '\n')).GetOr("")
  {
    var lines := Split(description, '\n');
    for i := 0 to |lines|
      invariant FirstMention(lines) == FirstMention(lines[i..])
    {
      assert lines[i..][1..] == lines[i + 1..] && lines[i..][0] == lines[i];
      var line := TrimSpace(lines[i]);
      if PREFIX <= line {
        return TrimSpace(line[|PREFIX|..]);
      }
    }
    r := "";
  }

  lemma {:induction false} FirstMentionAppend(a: seq<string>, b: seq<string>)
    ensures FirstMention(a + b) == if FirstMention(a).Some? then FirstMention(a) else FirstMention(b)
  {
    hide Mentions;
    if a == [] {
      assert a + b == b;
    } else {
      assert (a + b)[1..] == a[1..] + b && (a + b)[0] == a[0];
      FirstMentionAppend(a[1..], b);
    }
  }

  lemma RowMentions(molecule: string)
    requires molecule != "" && Trimmed(molecule)
    ensures Mentions("instantiated_from: " + molecule) == Some(molecule)
  {
    var row := "instantiated_from: " + molecule;
    assert row[|row| - 1] == molecule[|molecule| - 1] && row[0] == 'i';
    TrimSpaceTrims(row);
    TrimLeadingSpace(molecule);
    TrimSpaceTrims(molecule);
    assert row[|PREFIX|..] == " " + molecule && PREFIX <= row;
  }

  lemma BlankMentions()
    ensures FirstMention([]).None? && FirstMention([""]).None?
  {
    assert TrimSpace("") == "" && [""][1..] == [];
  }

  /** A child's description names its molecule to its readers exactly when its text does not
      mention another one first. */
  lemma MoleculeReadBackIff(description: string, text: string, molecule: Id, more: seq<string>)
    requires Describes(description, text, ["instantiated_from: " + molecule] + more)
    requires molecule != "" && Trimmed(molecule) && Free(molecule, '\n') && AllFree(more, '\n')
    ensures FirstMention(Split(description, '\n')) == Some(molecule) <==>
            FirstMention(Split(text, '\n')).None? || FirstMention(Split(text, '\n')) == Some(molecule)
  {
    var row := "instantiated_from: " + molecule;
    var rows := [row] + more;
    assert Free(row, '\n');
    assert AllFree(rows, '\n');
    DescribedLines(description, text, rows);
    RowMentions(molecule);
    BlankMentions();
    assert Split("", '\n') == [""];
    hide Split, Mentions, Describes;
    assert rows[0] == row;
    var lines := Split(text, '\n');
    FirstMentionAppend(lines + [""], rows);
    FirstMentionAppend(lines, [""]);
    assert [] + rows == rows;
  }
}
