/** Creating the child issues of a molecule and wiring their dependencies. */
module Instantiation {
  import opened Text
  import opened StepGraph
  import opened StepParser
  import opened Molecule

  type Id = string

  datatype Status = Open | Closed

  datatype Issue = Issue(id: Id, title: string, kind: string, priority: int, description: string,
                         parent: Id, status: Status)

  datatype CreateOptions = CreateOptions(title: string, kind: string, priority: int, description: string, parent: Id)

  datatype Parent = Parent(id: Id, priority: int)

  function Created(id: Id, o: CreateOptions): Issue {
    Issue(id, o.title, o.kind, o.priority, o.description, o.parent, Open)
  }

  /** The issue database behind the `bd` command. Each command may fail, unless `reliable` or
      `closes` says otherwise; a failed one changes nothing. `blocks` holds (issue, issue it
      depends on). */
  class Beads {
    const reliable: bool  // creating an issue and adding a dependency always work
    const closes: bool    // closing one always works
    var issues: map<Id, Issue>
    var blocks: set<(Id, Id)>

    constructor (reliable: bool, closes: bool)
      ensures this.reliable == reliable && this.closes == closes && issues == map[] && blocks == {}
    {
      this.reliable, this.closes := reliable, closes;
      issues, blocks := map[], {};
    }

    method Create(opts: CreateOptions) returns (r: Option<Issue>)
      modifies this`issues
      ensures r.None? ==> issues == old(issues)
      ensures r.Some? ==> r.value.id !in old(issues) && r.value == Created(r.value.id, opts)
      ensures r.Some? ==> issues == old(issues)[r.value.id := r.value]
      ensures reliable ==> r.Some?
    {
      var id: string, works: bool := *, *;
      if reliable && id in issues {
        id := Unused(issues.Keys);
      } else if !reliable && (!works || id in issues) {
        return None;
      }
      var issue := Created(id, opts);
      issues := issues[id := issue];
      r := Some(issue);
    }

    method Close(id: Id) returns (ok: bool)
      modifies this`issues
      ensures issues.Keys == old(issues).Keys
      ensures forall i | i in issues ::
                issues[i] == if ok && i == id then old(issues)[i].(status := Closed) else old(issues)[i]
      ensures closes ==> ok
    {
      var works: bool := *;
      ok := works || closes;
      if ok && id in issues {
        issues := issues[id := issues[id].(status := Closed)];
      }
    }

    method AddDependency(issue: Id, dependsOn: Id) returns (ok: bool)
      modifies this`blocks
      ensures blocks == old(blocks) + if ok then {(issue, dependsOn)} else {}
      ensures reliable ==> ok
    {
      var works: bool := *;
      ok := works || reliable;
      if ok {
        blocks := blocks + {(issue, dependsOn)};
      }
    }
  }

  /** An ID longer than all that are taken. */
  method Unused(ids: set<Id>) returns (id: Id)
    ensures id !in ids
  {
    var left := ids;
    id := "0";
    while left != {}
      invariant left <= ids && forall i | i in ids && i !in left :: |i| < |id|
      decreases |left|
    {
      var i :| i in left;
      if |i| >= |id| {
        id := i + "0";
      }
      left := left - {i};
    }
  }

  // ----- what instantiation should produce -----

  /** The creation options of the child for one step. */
  function ChildOf(step: Step, molecule: Id, parent: Parent, expand: string -> string): CreateOptions {
    var instructions := expand(step.instructions);
    CreateOptions(step.title, "task", parent.priority,
                  (if instructions == "" then "" else instructions + "\n\n") +
                  "instantiated_from: " + molecule + "\nstep: " + step.ref +
                  (if step.tier == "" then "" else "\ntier: " + step.tier),
                  parent.id)
  }

  function ChildrenOf(steps: seq<Step>, molecule: Id, parent: Parent, expand: string -> string): seq<CreateOptions> {
    seq(|steps|, i requires 0 <= i < |steps| => ChildOf(steps[i], molecule, parent, expand))
  }

  /** A template entry as the wiring pass sees it: a step ref with its needs, or a
      template issue with the issues it depends on. */
  datatype Node = Node(key: string, needs: seq<string>)

  function Keys(nodes: seq<Node>): seq<string> {
    seq(|nodes|, i requires 0 <= i < |nodes| => nodes[i].key)
  }

  function NodesOf(steps: seq<Step>): seq<Node> {
    seq(|steps|, i requires 0 <= i < |steps| => Node(steps[i].ref, steps[i].needs))
  }

  /** The needs that stay inside the template. */
  function Inside(needs: seq<string>, keys: set<string>): seq<string> {
    if needs == [] then []
    else
      var n := |needs| - 1;
      Inside(needs[..n], keys) + if needs[n] in keys then [needs[n]] else []
  }

  function EdgesFrom(key: string, needs: seq<string>): seq<(string, string)> {
    seq(|needs|, j requires 0 <= j < |needs| => (key, needs[j]))
  }

  /** The dependencies in the order the second pass adds them. */
  function EdgesOf(nodes: seq<Node>, keys: set<string>): seq<(string, string)> {
    if nodes == [] then []
    else
      var n := |nodes| - 1;
      EdgesOf(nodes[..n], keys) + EdgesFrom(nodes[n].key, Inside(nodes[n].needs, keys))
  }

  function AddAll(issues: map<Id, Issue>, created: seq<Issue>): map<Id, Issue> {
    if created == [] then issues
    else AddAll(issues, created[..|created| - 1])[created[|created| - 1].id := created[|created| - 1]]
  }

  /** The map from template key to new issue ID: a repeated key keeps the last issue. */
  function IdMap(keys: seq<string>, created: seq<Issue>): map<string, Id>
    requires |keys| == |created|
  {
    if keys == [] then map[]
    else
      var n := |keys| - 1;
      IdMap(keys[..n], created[..n])[keys[n] := created[n].id]
  }

  function Wired(edges: seq<(string, string)>, ids: map<string, Id>): set<(Id, Id)>
    requires forall e | e in edges :: e.0 in ids && e.1 in ids
  {
    set e | e in edges :: (ids[e.0], ids[e.1])
  }

  /** `created` are new issues for the given options, with IDs that are new and distinct. */
  predicate FreshChildren(created: seq<Issue>, opts: seq<CreateOptions>, before: map<Id, Issue>) {
    && |created| == |opts|
    && (forall i | 0 <= i < |opts| :: created[i] == Created(created[i].id, opts[i]))
    && (forall i | 0 <= i < |created| :: created[i].id !in before)
    && (forall i, j | 0 <= i < j < |created| :: created[i].id != created[j].id)
  }

  /** After a failed creation: the old issues are as they were, and the only new ones are
      the first `n` children, each possibly closed again. */
  ghost predicate LeftOver(after: map<Id, Issue>, before: map<Id, Issue>, created: seq<Issue>) {
    && (forall i | i in before :: i in after && after[i] == before[i])
    && (forall c | c in created :: c.id in after && after[c.id].(status := Open) == c)
    && (forall i | i in after :: i in before || exists c | c in created :: c.id == i)
  }

  /** All of these issues are closed. */
  predicate AllClosed(issues: map<Id, Issue>, created: seq<Issue>) {
    forall c | c in created :: c.id in issues && issues[c.id].status == Closed
  }

  lemma AddAllNext(issues: map<Id, Issue>, created: seq<Issue>, c: Issue)
    ensures AddAll(issues, created + [c]) == AddAll(issues, created)[c.id := c]
  {
    assert (created + [c])[..|created|] == created;
  }

  lemma {:induction false} AddAllKeys(issues: map<Id, Issue>, created: seq<Issue>)
    ensures forall i :: i in AddAll(issues, created) <==> i in issues || exists c | c in created :: c.id == i
  {
    if created != [] {
      var n := |created| - 1;
      AddAllKeys(issues, created[..n]);
      assert created == created[..n] + [created[n]];
    }
  }

  /** One more fresh child on top of what is there. */
  lemma LeftOverNext(after: map<Id, Issue>, before: map<Id, Issue>, created: seq<Issue>, c: Issue)
    requires LeftOver(after, before, created) && c.id !in before && c.status == Open
    requires forall d | d in created :: d.id != c.id
    ensures LeftOver(after[c.id := c], before, created + [c])
  {
    assert forall d :: d in created + [c] <==> d in created || d == c;
    assert c in created + [c];
  }

  lemma {:induction false} AddAllFresh(issues: map<Id, Issue>, created: seq<Issue>, opts: seq<CreateOptions>)
    requires FreshChildren(created, opts, issues)
    ensures LeftOver(AddAll(issues, created), issues, created)
  {
    hide LeftOver;
    if created != [] {
      var n := |created| - 1;
      AddAllFresh(issues, created[..n], opts[..n]);
      LeftOverNext(AddAll(issues, created[..n]), issues, created[..n], created[n]);
      assert created == created[..n] + [created[n]];
    } else {
      NothingLeftOver(issues);
    }
  }

  lemma NothingLeftOver(issues: map<Id, Issue>)
    ensures LeftOver(issues, issues, [])
  {}

  lemma IdMapNext(keys: seq<string>, created: seq<Issue>, key: string, c: Issue)
    requires |keys| == |created|
    ensures IdMap(keys + [key], created + [c]) == IdMap(keys, created)[key := c.id]
  {
    assert (keys + [key])[..|keys|] == keys && (created + [c])[..|created|] == created;
  }

  lemma {:induction false} IdMapKeys(keys: seq<string>, created: seq<Issue>)
    requires |keys| == |created|
    ensures forall k :: k in IdMap(keys, created) <==> k in keys
  {
    if keys != [] {
      var n := |keys| - 1;
      IdMapKeys(keys[..n], created[..n]);
      assert keys == keys[..n] + [keys[n]];
    }
  }

  predicate DistinctKeys(keys: seq<string>) {
    forall i, j | 0 <= i < j < |keys| :: keys[i] != keys[j]
  }

  /** The last of the entries with its key. */
  predicate LastOf(keys: seq<string>, i: nat)
    requires i < |keys|
  {
    forall k | i < k < |keys| :: keys[k] != keys[i]
  }

  /** A key stands for the issue of its last entry. */
  lemma {:induction false} IdMapLast(keys: seq<string>, created: seq<Issue>, key: string) returns (i: nat)
    requires |keys| == |created| && key in keys
    ensures i < |keys| && keys[i] == key && LastOf(keys, i)
    ensures key in IdMap(keys, created) && IdMap(keys, created)[key] == created[i].id
  {
    var n := |keys| - 1;
    if keys[n] == key {
      i := n;
    } else {
      assert keys == keys[..n] + [keys[n]];
      i := IdMapLast(keys[..n], created[..n], key);
      assert forall k | i < k < n :: keys[k] == keys[..n][k];
    }
  }

  lemma IdMapAt(keys: seq<string>, created: seq<Issue>, i: nat)
    requires |keys| == |created| && i < |keys|
    requires forall k, l | 0 <= k < l < |created| :: created[k].id != created[l].id
    ensures keys[i] in IdMap(keys, created)
    ensures IdMap(keys, created)[keys[i]] == created[i].id <==> LastOf(keys, i)
  {
    var last := IdMapLast(keys, created, keys[i]);
    hide IdMap;
  }

  lemma FreshNext(created: seq<Issue>, opts: seq<CreateOptions>, before: map<Id, Issue>, c: Issue, o: CreateOptions)
    requires FreshChildren(created, opts, before)
    requires c.id !in AddAll(before, created) && c == Created(c.id, o)
    ensures FreshChildren(created + [c], opts + [o], before)
  {
    AddAllKeys(before, created);
    assert forall x | x in created :: x.id != c.id;
  }

  // ----- the first pass -----

  /** What one close does, whether it works or not. */
  ghost predicate CloseStep(was: map<Id, Issue>, now: map<Id, Issue>, id: Id, ok: bool) {
    && now.Keys == was.Keys
    && forall i | i in now :: now[i] == if ok && i == id then was[i].(status := Closed) else was[i]
  }

  lemma ClosesAsStep(was: map<Id, Issue>, now: map<Id, Issue>, id: Id, ok: bool)
    requires now.Keys == was.Keys
    requires forall i | i in now :: now[i] == if ok && i == id then was[i].(status := Closed) else was[i]
    ensures CloseStep(was, now, id, ok)
  {}

  lemma NoneToClose(issues: map<Id, Issue>)
    ensures AllClosed(issues, [])
  {}

  lemma CloseStepLeaves(was: map<Id, Issue>, now: map<Id, Issue>, id: Id, ok: bool,
                        before: map<Id, Issue>, created: seq<Issue>)
    requires CloseStep(was, now, id, ok) && LeftOver(was, before, created) && id !in before
    ensures LeftOver(now, before, created)
  {}

  lemma CloseStepCloses(was: map<Id, Issue>, now: map<Id, Issue>, c: Issue, created: seq<Issue>)
    requires CloseStep(was, now, c.id, true) && AllClosed(was, created) && c.id in was
    ensures AllClosed(now, created + [c])
  {
    assert forall d | d in created + [c] :: d in created || d == c;
  }

  lemma LeftOverHas(after: map<Id, Issue>, before: map<Id, Issue>, created: seq<Issue>, c: Issue)
    requires LeftOver(after, before, created) && c in created
    ensures c.id in after
  {}

  /** Best-effort clean-up: each close may fail. */
  method CloseAll(db: Beads, created: seq<Issue>, ghost before: map<Id, Issue>)
    requires LeftOver(db.issues, before, created)
    requires forall c | c in created :: c.id !in before
    modifies db`issues
    ensures LeftOver(db.issues, before, created)
    ensures db.closes ==> AllClosed(db.issues, created)
  {
    hide LeftOver, AllClosed, CloseStep;
    NoneToClose(db.issues);
    for j := 0 to |created|
      invariant LeftOver(db.issues, before, created)
      invariant db.closes ==> AllClosed(db.issues, created[..j])
    {
      ghost var was := db.issues;
      LeftOverHas(was, before, created, created[j]);
      var ok := db.Close(created[j].id);
      ClosesAsStep(was, db.issues, created[j].id, ok);
      CloseStepLeaves(was, db.issues, created[j].id, ok, before, created);
      if db.closes {
        CloseStepCloses(was, db.issues, created[j], created[..j]);
        assert created[..j + 1] == created[..j] + [created[j]];
      }
    }
    assert created[..|created|] == created;
  }

  lemma NothingCreated(before: map<Id, Issue>)
    ensures FreshChildren([], [], before) && AddAll(before, []) == before && IdMap([], []) == map[]
  {}

  lemma FreshIds(created: seq<Issue>, opts: seq<CreateOptions>, before: map<Id, Issue>)
    requires FreshChildren(created, opts, before)
    ensures forall c | c in created :: c.id !in before
  {}

  /** Create the children in order; when one fails, close those already created. */
  method CreateChildren(db: Beads, keys: seq<string>, opts: seq<CreateOptions>)
    returns (ok: bool, created: seq<Issue>, ids: map<string, Id>)
    requires |keys| == |opts|
    modifies db`issues
    ensures |created| <= |opts| && FreshChildren(created, opts[..|created|], old(db.issues))
    ensures ok ==> |created| == |opts| && db.issues == AddAll(old(db.issues), created) && ids == IdMap(keys, created)
    ensures !ok ==> |created| < |opts| && LeftOver(db.issues, old(db.issues), created)
    ensures db.reliable ==> ok
    ensures !ok && db.closes ==> AllClosed(db.issues, created)
  {
    hide LeftOver, AllClosed, FreshChildren, AddAll, IdMap;
    ghost var before := db.issues;
    NothingCreated(before);
    created, ids := [], map[];
    assert opts[..0] == [] && keys[..0] == [];
    for i := 0 to |opts|
      invariant |created| == i && FreshChildren(created, opts[..i], before)
      invariant db.issues == AddAll(before, created) && ids == IdMap(keys[..i], created)
    {
      var child := db.Create(opts[i]);
      if child.None? {
        AddAllFresh(before, created, opts[..i]);
        FreshIds(created, opts[..i], before);
        CloseAll(db, created, before);
        return false, created, ids;
      }
      FreshNext(created, opts[..i], before, child.value, opts[i]);
      AddAllNext(before, created, child.value);
      IdMapNext(keys[..i], created, keys[i], child.value);
      assert opts[..i + 1] == opts[..i] + [opts[i]] && keys[..i + 1] == keys[..i] + [keys[i]];
      created := created + [child.value];
      ids := ids[keys[i] := child.value.id];
    }
    assert opts[..|opts|] == opts && keys[..|keys|] == keys;
    ok := true;
  }

  // ----- the second pass -----

  predicate Covers(ids: map<string, Id>, edges: seq<(string, string)>) {
    forall e | e in edges :: e.0 in ids && e.1 in ids
  }

  lemma WiredNext(edges: seq<(string, string)>, e: (string, string), ids: map<string, Id>)
    requires Covers(ids, edges) && e.0 in ids && e.1 in ids
    ensures Covers(ids, edges + [e])
    ensures Wired(edges + [e], ids) == Wired(edges, ids) + {(ids[e.0], ids[e.1])}
  {
    assert forall x :: x in edges + [e] <==> x in edges || x == e;
  }

  lemma {:induction false} EdgesGrow(nodes: seq<Node>, keys: set<string>, i: nat)
    requires i <= |nodes|
    ensures EdgesOf(nodes[..i], keys) <= EdgesOf(nodes, keys)
    decreases |nodes| - i
  {
    if i == |nodes| {
      assert nodes[..i] == nodes;
    } else {
      EdgesGrow(nodes, keys, i + 1);
      assert nodes[..i + 1][..i] == nodes[..i];
    }
  }

  lemma {:induction false} InsideIs(needs: seq<string>, keys: set<string>)
    ensures forall b :: b in Inside(needs, keys) <==> b in needs && b in keys
  {
    if needs != [] {
      var n := |needs| - 1;
      InsideIs(needs[..n], keys);
      assert needs == needs[..n] + [needs[n]];
    }
  }

  /** Every edge of the list is a need inside the template, and the other way round. */
  lemma {:induction false} EdgesAre(nodes: seq<Node>, keys: set<string>, a: string, b: string)
    ensures (a, b) in EdgesOf(nodes, keys) <==> b in keys && exists x | x in nodes :: x.key == a && b in x.needs
  {
    if nodes != [] {
      var n := |nodes| - 1;
      var last := nodes[n];
      EdgesAre(nodes[..n], keys, a, b);
      assert nodes == nodes[..n] + [last];
      InsideIs(last.needs, keys);
      var needs := Inside(last.needs, keys);
      assert (a, b) in EdgesFrom(last.key, needs) <==> last.key == a && b in needs by {
        if last.key == a && b in needs {
          var j :| 0 <= j < |needs| && needs[j] == b;
          assert EdgesFrom(last.key, needs)[j] == (a, b);
        }
      }
    }
  }

  lemma WiredAppend(a: seq<(string, string)>, b: seq<(string, string)>, ids: map<string, Id>)
    requires Covers(ids, a) && Covers(ids, b)
    ensures Covers(ids, a + b) && Wired(a + b, ids) == Wired(a, ids) + Wired(b, ids)
  {
    assert forall x :: x in a + b <==> x in a || x in b;
  }

  lemma NothingWired(ids: map<string, Id>)
    ensures Wired([], ids) == {}
  {}

  lemma InsideGrows(needs: seq<string>, keys: set<string>, j: nat)
    requires j < |needs|
    ensures Inside(needs[..j + 1], keys) == Inside(needs[..j], keys) + if needs[j] in keys then [needs[j]] else []
  {
    assert needs[..j + 1][..j] == needs[..j];
  }

  lemma {:induction false} InsidePrefix(needs: seq<string>, keys: set<string>, j: nat)
    requires j <= |needs|
    ensures Inside(needs[..j], keys) <= Inside(needs, keys)
    decreases |needs| - j
  {
    if j == |needs| {
      assert needs[..j] == needs;
    } else {
      InsidePrefix(needs, keys, j + 1);
      InsideGrows(needs, keys, j);
    }
  }

  /** The inner loop: the needs of one node, skipping those that point outside the
      template. Stops at the first failure. */
  method WireNeeds(db: Beads, key: string, needs: seq<string>, ids: map<string, Id>)
    returns (ok: bool, ghost added: seq<string>)
    requires key in ids
    modifies db`blocks
    ensures added <= Inside(needs, ids.Keys) && (ok <==> added == Inside(needs, ids.Keys))
    ensures Covers(ids, EdgesFrom(key, added))
    ensures db.blocks == old(db.blocks) + Wired(EdgesFrom(key, added), ids)
    ensures db.reliable ==> ok
  {
    added := [];
    for j := 0 to |needs|
      invariant added == Inside(needs[..j], ids.Keys) && Covers(ids, EdgesFrom(key, added))
      invariant db.blocks == old(db.blocks) + Wired(EdgesFrom(key, added), ids)
    {
      InsideGrows(needs, ids.Keys, j);
      if needs[j] !in ids {
        continue;
      }
      InsidePrefix(needs, ids.Keys, j + 1);
      var succeeded := db.AddDependency(ids[key], ids[needs[j]]);
      if !succeeded {
        return false, added;
      }
      assert EdgesFrom(key, added + [needs[j]]) == EdgesFrom(key, added) + [(key, needs[j])];
      WiredNext(EdgesFrom(key, added), (key, needs[j]), ids);
      added := added + [needs[j]];
    }
    assert needs[..|needs|] == needs;
    ok := true;
  }

  lemma PartOfNode(nodes: seq<Node>, keys: set<string>, i: nat, part: seq<string>)
    requires i < |nodes| && part <= Inside(nodes[i].needs, keys)
    ensures EdgesOf(nodes[..i], keys) + EdgesFrom(nodes[i].key, part) <= EdgesOf(nodes, keys)
    ensures part == Inside(nodes[i].needs, keys) ==>
              EdgesOf(nodes[..i + 1], keys) == EdgesOf(nodes[..i], keys) + EdgesFrom(nodes[i].key, part)
  {
    EdgesGrow(nodes, keys, i + 1);
    assert nodes[..i + 1][..i] == nodes[..i];
  }

  /** The second pass: all edges, or, after a failure, the first few of them in order. */
  method WireNodes(db: Beads, nodes: seq<Node>, ids: map<string, Id>)
    returns (ok: bool, ghost added: seq<(string, string)>)
    requires forall x | x in nodes :: x.key in ids
    modifies db`blocks
    ensures added <= EdgesOf(nodes, ids.Keys) && Covers(ids, added) && (ok <==> added == EdgesOf(nodes, ids.Keys))
    ensures db.blocks == old(db.blocks) + Wired(added, ids)
    ensures db.reliable ==> ok
  {
    hide Wired;
    added := [];
    NothingWired(ids);
    for i := 0 to |nodes|
      invariant added == EdgesOf(nodes[..i], ids.Keys) && Covers(ids, added)
      invariant db.blocks == old(db.blocks) + Wired(added, ids)
    {
      assert nodes[i] in nodes;
      var succeeded, part := WireNeeds(db, nodes[i].key, nodes[i].needs, ids);
      PartOfNode(nodes, ids.Keys, i, part);
      WiredAppend(added, EdgesFrom(nodes[i].key, part), ids);
      if !succeeded {
        PartOfNode(nodes, ids.Keys, i, Inside(nodes[i].needs, ids.Keys));
      }
      added := added + EdgesFrom(nodes[i].key, part);
      if !succeeded {
        return false, added;
      }
    }
    assert nodes[..|nodes|] == nodes;
    ok := true;
  }

  // ----- instantiation -----

  /** How an instantiation ends. `created` are the children made; the caller is not told them
      when a creation failed. */
  datatype Outcome =
    | Instantiated(created: seq<Issue>)
    | NoStepsDefined
    | DependsOnUnknown(ref: string, need: string)
    | CreationFailed(created: seq<Issue>)
    | WiringFailed(created: seq<Issue>)

  /** The database after a successful instantiation of `nodes` with children `opts`. */
  ghost predicate InstanceOf(nodes: seq<Node>, opts: seq<CreateOptions>, created: seq<Issue>,
                             issues0: map<Id, Issue>, blocks0: set<(Id, Id)>,
                             issues1: map<Id, Issue>, blocks1: set<(Id, Id)>) {
    && |nodes| == |opts| && FreshChildren(created, opts, issues0) && issues1 == AddAll(issues0, created)
    && var ids := IdMap(Keys(nodes), created);
    && Covers(ids, EdgesOf(nodes, ids.Keys))
    && blocks1 == blocks0 + Wired(EdgesOf(nodes, ids.Keys), ids)
  }

  /** The database after the wiring failed: the children are there, and of the edges a
      proper prefix, in order. */
  ghost predicate PartlyWired(nodes: seq<Node>, opts: seq<CreateOptions>, created: seq<Issue>,
                              issues0: map<Id, Issue>, blocks0: set<(Id, Id)>,
                              issues1: map<Id, Issue>, blocks1: set<(Id, Id)>) {
    && |nodes| == |opts| && FreshChildren(created, opts, issues0) && issues1 == AddAll(issues0, created)
    && var ids := IdMap(Keys(nodes), created);
    && exists added :: added < EdgesOf(nodes, ids.Keys) && Covers(ids, added) && blocks1 == blocks0 + Wired(added, ids)
  }

  /** The database after a failed creation: no edge was added, and the only new issues are
      the children created before the failure, each still open or closed again. */
  ghost predicate CleanedUp(created: seq<Issue>, opts: seq<CreateOptions>, issues0: map<Id, Issue>, blocks0: set<(Id, Id)>,
                            issues1: map<Id, Issue>, blocks1: set<(Id, Id)>) {
    && blocks1 == blocks0
    && |created| < |opts| && FreshChildren(created, opts[..|created|], issues0)
    && LeftOver(issues1, issues0, created)
  }

  ghost predicate Result(r: Outcome, nodes: seq<Node>, opts: seq<CreateOptions>,
                         issues0: map<Id, Issue>, blocks0: set<(Id, Id)>,
                         issues1: map<Id, Issue>, blocks1: set<(Id, Id)>) {
    match r
    case Instantiated(created) => InstanceOf(nodes, opts, created, issues0, blocks0, issues1, blocks1)
    case WiringFailed(created) => PartlyWired(nodes, opts, created, issues0, blocks0, issues1, blocks1)
    case CreationFailed(created) => CleanedUp(created, opts, issues0, blocks0, issues1, blocks1)
    case _ => issues1 == issues0 && blocks1 == blocks0
  }

  /** Both passes over a template. */
  method TwoPasses(db: Beads, nodes: seq<Node>, opts: seq<CreateOptions>) returns (r: Outcome)
    requires |nodes| == |opts|
    modifies db
    ensures r.Instantiated? || r.CreationFailed? || r.WiringFailed?
    ensures Result(r, nodes, opts, old(db.issues), old(db.blocks), db.issues, db.blocks)
    ensures db.reliable ==> r.Instantiated?
    ensures r.CreationFailed? && db.closes ==> AllClosed(db.issues, r.created)
  {
    hide AllClosed, FreshChildren, LeftOver, AddAll, IdMap, EdgesOf, Covers, Wired;
    var ok, created, ids := CreateChildren(db, Keys(nodes), opts);
    if !ok {
      return CreationFailed(created);
    }
    assert opts[..|created|] == opts;
    IdMapKeys(Keys(nodes), created);
    forall x | x in nodes ensures x.key in ids {
      var i :| 0 <= i < |nodes| && nodes[i] == x;
      assert Keys(nodes)[i] == x.key;
    }
    ghost var added;
    ok, added := WireNodes(db, nodes, ids);
    r := if ok then Instantiated(created) else WiringFailed(created);
  }

  /** `instantiateFromMarkdown`. Unknown needs are rejected before anything is created;
      cycles are not looked for here. */
  method InstantiateFromMarkdown(db: Beads, molecule: Id, description: string, parent: Parent, expand: string -> string)
    returns (r: Outcome)
    modifies db
    ensures var steps := Denotes(description);
            && (r.NoStepsDefined? <==> steps == [])
            && (r.DependsOnUnknown? <==> !KnownNeeds(steps))
            && (r.DependsOnUnknown? ==> r.need !in Refs(steps) && exists s | s in steps :: s.ref == r.ref && r.need in s.needs)
            && Result(r, NodesOf(steps), ChildrenOf(steps, molecule, parent, expand),
                      old(db.issues), old(db.blocks), db.issues, db.blocks)
            && (db.reliable ==> (r.Instantiated? <==> steps != [] && KnownNeeds(steps)))
    ensures r.CreationFailed? && db.closes ==> AllClosed(db.issues, r.created)
  {
    hide AllClosed, InstanceOf, PartlyWired, CleanedUp, Denotes, ChildOf;
    var steps := ParseMoleculeSteps(description);
    if |steps| == 0 {
      return NoStepsDefined;
    }
    var stepMap := set s | s in steps :: s.ref;
    assert stepMap == Refs(steps);
    for i := 0 to |steps|
      invariant forall k, n | 0 <= k < i && n in steps[k].needs :: n in stepMap
    {
      for j := 0 to |steps[i].needs|
        invariant forall k | 0 <= k < j :: steps[i].needs[k] in stepMap
      {
        if steps[i].needs[j] !in stepMap {
          assert steps[i] in steps && steps[i].needs[j] in steps[i].needs;
          return DependsOnUnknown(steps[i].ref, steps[i].needs[j]);
        }
      }
    }
    assert KnownNeeds(steps) by {
      forall s, n | s in steps && n in s.needs ensures n in Refs(steps) {
        var k :| 0 <= k < |steps| && steps[k] == s;
      }
    }
    r := TwoPasses(db, NodesOf(steps), ChildrenOf(steps, molecule, parent, expand));
  }

  datatype TemplateIssue = TemplateIssue(id: Id, title: string, kind: string, description: string, dependsOn: seq<Id>)

  function ChildOfTemplate(t: TemplateIssue, molecule: Id, parent: Parent, expand: string -> string): CreateOptions {
    var description := expand(t.description);
    CreateOptions(t.title, if t.kind == "" then "task" else t.kind, parent.priority,
                  (if description == "" then "" else description + "\n\n") +
                  "instantiated_from: " + molecule + "\ntemplate_step: " + t.id,
                  parent.id)
  }

  function ChildrenOfTemplates(ts: seq<TemplateIssue>, molecule: Id, parent: Parent, expand: string -> string): seq<CreateOptions> {
    seq(|ts|, i requires 0 <= i < |ts| => ChildOfTemplate(ts[i], molecule, parent, expand))
  }

  function TemplateNodes(ts: seq<TemplateIssue>): seq<Node> {
    seq(|ts|, i requires 0 <= i < |ts| => Node(ts[i].id, ts[i].dependsOn))
  }

  /** `InstantiateMolecule`: template children when listing finds some, else the markdown. */
  method InstantiateMolecule(db: Beads, molecule: Id, description: string, templates: Option<seq<TemplateIssue>>,
                             parent: Parent, expand: string -> string) returns (r: Outcome)
    modifies db
    ensures var ts := templates.GetOr([]);
            if ts == [] then
              var steps := Denotes(description);
              && (r.NoStepsDefined? <==> steps == []) && (r.DependsOnUnknown? <==> !KnownNeeds(steps))
              && Result(r, NodesOf(steps), ChildrenOf(steps, molecule, parent, expand),
                        old(db.issues), old(db.blocks), db.issues, db.blocks)
            else
              && !r.NoStepsDefined? && !r.DependsOnUnknown?
              && Result(r, TemplateNodes(ts), ChildrenOfTemplates(ts, molecule, parent, expand),
                        old(db.issues), old(db.blocks), db.issues, db.blocks)
    ensures db.reliable ==> r.Instantiated? || r.NoStepsDefined? || r.DependsOnUnknown?
    ensures r.CreationFailed? && db.closes ==> AllClosed(db.issues, r.created)
  {
    hide AllClosed, InstanceOf, PartlyWired, CleanedUp, Denotes, ChildOf, ChildOfTemplate, KnownNeeds;
    var ts := templates.GetOr([]);
    if |ts| > 0 {
      r := TwoPasses(db, TemplateNodes(ts), ChildrenOfTemplates(ts, molecule, parent, expand));
    } else {
      r := InstantiateFromMarkdown(db, molecule, description, parent, expand);
    }
  }

  // ----- the created graph is the image of the template's -----

  /** Dependencies only join issues of the database. */
  ghost predicate WithinDatabase(issues: map<Id, Issue>, blocks: set<(Id, Id)>) {
    forall e | e in blocks :: e.0 in issues && e.1 in issues
  }

  lemma WiredAt(edges: seq<(string, string)>, ids: map<string, Id>, a: string, b: string)
    requires Covers(ids, edges) && a in ids && b in ids
    requires forall x, y | x in ids && y in ids && ids[x] == ids[y] :: x == y
    ensures (ids[a], ids[b]) in Wired(edges, ids) <==> (a, b) in edges
  {}

  lemma IdMapInjective(keys: seq<string>, created: seq<Issue>)
    requires |keys| == |created|
    requires forall i, j | 0 <= i < j < |created| :: created[i].id != created[j].id
    ensures forall x, y | x in IdMap(keys, created) && y in IdMap(keys, created) &&
              IdMap(keys, created)[x] == IdMap(keys, created)[y] :: x == y
  {
    IdMapKeys(keys, created);
    var ids := IdMap(keys, created);
    hide IdMap;
    forall x, y | x in ids && y in ids && ids[x] == ids[y] ensures x == y {
      var i := IdMapLast(keys, created, x);
      var j := IdMapLast(keys, created, y);
    }
  }

  /** A node with this key needs that one. */
  predicate NeededBy(nodes: seq<Node>, key: string, need: string) {
    exists x | x in nodes :: x.key == key && need in x.needs
  }

  /** The child of node i depends on the child of node j exactly when both are the last with
      their keys and some node with the key of node i needs that of node j. */
  lemma WiredToLast(nodes: seq<Node>, opts: seq<CreateOptions>, created: seq<Issue>,
                    issues0: map<Id, Issue>, blocks0: set<(Id, Id)>,
                    issues1: map<Id, Issue>, blocks1: set<(Id, Id)>, i: nat, j: nat)
    requires InstanceOf(nodes, opts, created, issues0, blocks0, issues1, blocks1)
    requires WithinDatabase(issues0, blocks0) && i < |nodes| && j < |nodes|
    ensures (created[i].id, created[j].id) in blocks1 <==>
            LastOf(Keys(nodes), i) && LastOf(Keys(nodes), j) && NeededBy(nodes, nodes[i].key, nodes[j].key)
  {
    var keys, ids := Keys(nodes), IdMap(Keys(nodes), created);
    var edges := EdgesOf(nodes, ids.Keys);
    IdMapInjective(keys, created);
    IdMapAt(keys, created, i);
    IdMapAt(keys, created, j);
    assert (created[i].id, created[j].id) !in blocks0;
    assert blocks1 == blocks0 + Wired(edges, ids) && Covers(ids, edges);
    EdgesAre(nodes, ids.Keys, keys[i], keys[j]);
    hide InstanceOf, IdMap, WithinDatabase, FreshChildren, Keys, LastOf, EdgesOf, Wired;
    WiredAt(edges, ids, keys[i], keys[j]);
    if (created[i].id, created[j].id) in Wired(edges, ids) {
      WiredEnds(edges, ids, created[i].id, created[j].id, keys, created, i, j);
    }
  }

  lemma OnlyLastIsNamed(keys: seq<string>, created: seq<Issue>, i: nat, key: string)
    requires |keys| == |created| && i < |keys| && key in keys
    requires forall k, l | 0 <= k < l < |created| :: created[k].id != created[l].id
    requires key in IdMap(keys, created) && IdMap(keys, created)[key] == created[i].id
    ensures LastOf(keys, i)
  {
    var last := IdMapLast(keys, created, key);
    hide IdMap, LastOf;
    assert last == i;
  }

  lemma WiredEnds(edges: seq<(string, string)>, ids: map<string, Id>, a: Id, b: Id,
                  keys: seq<string>, created: seq<Issue>, i: nat, j: nat)
    requires |keys| == |created| && i < |keys| && j < |keys| && ids == IdMap(keys, created)
    requires forall k, l | 0 <= k < l < |created| :: created[k].id != created[l].id
    requires Covers(ids, edges) && a == created[i].id && b == created[j].id && (a, b) in Wired(edges, ids)
    ensures LastOf(keys, i) && LastOf(keys, j)
  {
    IdMapKeys(keys, created);
    var e :| e in edges && ids[e.0] == a && ids[e.1] == b;
    hide IdMap, LastOf, Wired;
    OnlyLastIsNamed(keys, created, i, e.0);
    OnlyLastIsNamed(keys, created, j, e.1);
  }

  /** With distinct template keys this is an isomorphism: the child of node i depends on the
      child of node j exactly when node i needs node j. */
  lemma Isomorphism(nodes: seq<Node>, opts: seq<CreateOptions>, created: seq<Issue>,
                    issues0: map<Id, Issue>, blocks0: set<(Id, Id)>,
                    issues1: map<Id, Issue>, blocks1: set<(Id, Id)>, i: nat, j: nat)
    requires InstanceOf(nodes, opts, created, issues0, blocks0, issues1, blocks1)
    requires DistinctKeys(Keys(nodes)) && WithinDatabase(issues0, blocks0)
    requires i < |nodes| && j < |nodes|
    ensures (created[i].id, created[j].id) in blocks1 <==> nodes[j].key in nodes[i].needs
  {
    WiredToLast(nodes, opts, created, issues0, blocks0, issues1, blocks1, i, j);
    hide InstanceOf, WithinDatabase;
    if nodes[j].key in nodes[i].needs {
      assert nodes[i] in nodes;
    }
    assert forall k | 0 <= k < |nodes| :: Keys(nodes)[k] == nodes[k].key;
  }

  // ----- all or nothing -----

  /** Every child is there, or nothing is. */
  ghost predicate AllOrNothing(opts: seq<CreateOptions>, issues0: map<Id, Issue>, issues1: map<Id, Issue>) {
    || issues1 == issues0
    || exists all :: FreshChildren(all, opts, issues0) && issues1 == AddAll(issues0, all)
  }

  function IdsOf(created: seq<Issue>): set<Id> {
    set c | c in created :: c.id
  }

  lemma {:induction false} IdsCount(created: seq<Issue>)
    requires forall i, j | 0 <= i < j < |created| :: created[i].id != created[j].id
    ensures |IdsOf(created)| == |created|
  {
    if created != [] {
      var n := |created| - 1;
      IdsCount(created[..n]);
      assert created == created[..n] + [created[n]];
      assert IdsOf(created) == IdsOf(created[..n]) + {created[n].id};
    }
  }

  lemma LeftOverIds(after: map<Id, Issue>, before: map<Id, Issue>, created: seq<Issue>)
    requires LeftOver(after, before, created) && forall c | c in created :: c.id !in before
    ensures after.Keys - before.Keys == IdsOf(created)
    ensures created == [] <==> after == before
  {
    assert created != [] ==> created[0] in created;
  }

  lemma AddAllIds(before: map<Id, Issue>, created: seq<Issue>, opts: seq<CreateOptions>)
    requires FreshChildren(created, opts, before)
    ensures AddAll(before, created).Keys - before.Keys == IdsOf(created)
  {
    AddAllKeys(before, created);
    hide AddAll;
  }

  /** Instantiation leaves all children or none exactly when no creation failed after an earlier
      one had worked. */
  lemma AllOrNothingIff(r: Outcome, nodes: seq<Node>, opts: seq<CreateOptions>,
                        issues0: map<Id, Issue>, blocks0: set<(Id, Id)>,
                        issues1: map<Id, Issue>, blocks1: set<(Id, Id)>)
    requires Result(r, nodes, opts, issues0, blocks0, issues1, blocks1)
    ensures AllOrNothing(opts, issues0, issues1) <==> !r.CreationFailed? || r.created == []
  {
    hide AddAll, LeftOver;
    if r.CreationFailed? {
      LeftOverIds(issues1, issues0, r.created);
      IdsCount(r.created);
      hide IdsOf;
      if r.created != [] && AllOrNothing(opts, issues0, issues1) {
        var all :| FreshChildren(all, opts, issues0) && issues1 == AddAll(issues0, all);
        AddAllIds(issues0, all, opts);
        IdsCount(all);
      }
    }
  }

  /** Two steps of which the second could not be created: the first stays behind, closed. */
  lemma HalfInstantiated()
    ensures var opts := [CreateOptions("a", "task", 1, "step: a", "p"), CreateOptions("b", "task", 1, "step: b", "p")];
            var left := Created("p.1", opts[0]);
            var nodes, after := [Node("a", []), Node("b", ["a"])], map["p.1" := left.(status := Closed)];
            Result(CreationFailed([left]), nodes, opts, map[], {}, after, {}) && !AllOrNothing(opts, map[], after)
  {
    var opts := [CreateOptions("a", "task", 1, "step: a", "p"), CreateOptions("b", "task", 1, "step: b", "p")];
    var left := Created("p.1", opts[0]);
    var nodes, after := [Node("a", []), Node("b", ["a"])], map["p.1" := left.(status := Closed)];
    assert opts[..1] == [opts[0]];
    assert left in [left];
    assert CleanedUp([left], opts, map[], {}, after, {});
    AllOrNothingIff(CreationFailed([left]), nodes, opts, map[], {}, after, {});
  }
}
