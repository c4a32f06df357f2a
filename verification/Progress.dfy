/** Working off an instantiated molecule: while a step is open, some open step is ready. */
module Progress {
  import opened Text
  import opened StepGraph
  import opened StepParser
  import opened Molecule
  import opened Instantiation

  /** The template's own graph: entries with equal keys are one node that needs what any of them
      needs, and needs that point outside the template are dropped. */
  function GraphOf(nodes: seq<Node>, keys: set<string>): Deps {
    if nodes == [] then map[]
    else
      var n := |nodes| - 1;
      var rest := GraphOf(nodes[..n], keys);
      rest[nodes[n].key := Needs(rest, nodes[n].key) + Inside(nodes[n].needs, keys)]
  }

  function KeySet(nodes: seq<Node>): set<string> {
    set k | k in Keys(nodes)
  }

  function Graph(nodes: seq<Node>): Deps {
    GraphOf(nodes, KeySet(nodes))
  }

  lemma {:induction false} GraphKeys(nodes: seq<Node>, keys: set<string>)
    ensures forall k :: k in GraphOf(nodes, keys) <==> exists x | x in nodes :: x.key == k
  {
    if nodes != [] {
      var n := |nodes| - 1;
      GraphKeys(nodes[..n], keys);
      assert nodes == nodes[..n] + [nodes[n]];
    }
  }

  /** The graph's edges are the edges the wiring pass adds. */
  lemma {:induction false} GraphEdges(nodes: seq<Node>, keys: set<string>, a: string, b: string)
    ensures Edge(GraphOf(nodes, keys), a, b) <==> (a, b) in EdgesOf(nodes, keys)
  {
    if nodes != [] {
      var n := |nodes| - 1;
      GraphEdges(nodes[..n], keys, a, b);
      EdgesFromAre(nodes[n].key, Inside(nodes[n].needs, keys), a, b);
      hide Inside, EdgesFrom;
    }
  }

  lemma EdgesFromAre(key: string, needs: seq<string>, a: string, b: string)
    ensures (a, b) in EdgesFrom(key, needs) <==> key == a && b in needs
  {
    if key == a && b in needs {
      var j :| 0 <= j < |needs| && needs[j] == b;
      assert EdgesFrom(key, needs)[j] == (a, b);
    }
  }

  /** For a step list with distinct refs whose needs are known this is the graph that was
      validated. */
  lemma {:induction false} GraphOfSteps(steps: seq<Step>, keys: set<string>)
    requires DistinctRefs(steps) && forall s, n | s in steps && n in s.needs :: n in keys
    ensures GraphOf(NodesOf(steps), keys) == DepsOf(steps)
  {
    if steps != [] {
      var n := |steps| - 1;
      GraphOfSteps(steps[..n], keys);
      assert NodesOf(steps)[..n] == NodesOf(steps[..n]);
      assert steps[n] in steps;
      InsideAll(steps[n].needs, keys);
      DepsOfSteps(steps[..n]);
      forall s | s in steps[..n] ensures s.ref != steps[n].ref {
        var i :| 0 <= i < n && steps[i] == s;
      }
      assert [] + steps[n].needs == steps[n].needs;
    }
  }

  lemma {:induction false} InsideAll(needs: seq<string>, keys: set<string>)
    requires forall n | n in needs :: n in keys
    ensures Inside(needs, keys) == needs
  {
    if needs != [] {
      var n := |needs| - 1;
      InsideAll(needs[..n], keys);
      assert needs == needs[..n] + [needs[n]];
    }
  }

  // ----- readiness in the database -----

  /** An issue that may be closed: it is open and everything it depends on is closed. */
  predicate IssueReady(blocks: set<(Id, Id)>, closed: set<Id>, id: Id) {
    id !in closed && forall e | e in blocks && e.0 == id :: e.1 in closed
  }

  ghost predicate NeverStalls(created: seq<Issue>, blocks: set<(Id, Id)>) {
    forall closed: set<Id> | SomeOpen(created, closed) :: SomeIssueReady(created, blocks, closed)
  }

  predicate SomeOpen(created: seq<Issue>, closed: set<Id>) {
    exists c | c in created :: c.id !in closed
  }

  predicate SomeIssueReady(created: seq<Issue>, blocks: set<(Id, Id)>, closed: set<Id>) {
    exists c | c in created :: IssueReady(blocks, closed, c.id)
  }

  predicate Named(ids: map<string, Id>, id: Id) {
    exists k | k in ids :: ids[k] == id
  }

  /** What the correspondence needs of an instantiation, in terms of the ID map. Children without
      a key, made for entries whose key was repeated, depend on nothing. */
  ghost predicate Image(nodes: seq<Node>, ids: map<string, Id>, created: seq<Issue>, blocks: set<(Id, Id)>) {
    && ids.Keys == KeySet(nodes)
    && (forall x, y | x in ids && y in ids && ids[x] == ids[y] :: x == y)
    && (forall k | k in ids :: exists c | c in created :: c.id == ids[k])
    && (forall a, b | a in ids && b in ids :: (ids[a], ids[b]) in blocks <==> Edge(Graph(nodes), a, b))
    && (forall a, y | a in ids && (ids[a], y) in blocks :: Named(ids, y))
    && (forall c, y | c in created && (c.id, y) in blocks :: Named(ids, c.id))
  }

  function Keyed(ids: map<string, Id>, closed: set<Id>): set<string> {
    set k | k in ids && ids[k] in closed
  }

  lemma ReadyMeansReady(nodes: seq<Node>, ids: map<string, Id>, created: seq<Issue>, blocks: set<(Id, Id)>,
                        closed: set<Id>, k: string)
    requires Image(nodes, ids, created, blocks) && k in ids
    requires forall a, b | Edge(Graph(nodes), a, b) :: a in ids && b in ids
    ensures IssueReady(blocks, closed, ids[k]) <==> Ready(Graph(nodes), Keyed(ids, closed), k)
  {
    hide Graph, KeySet;
    var g := Graph(nodes);
    if Ready(g, Keyed(ids, closed), k) {
      forall e | e in blocks && e.0 == ids[k] ensures e.1 in closed {
        assert (ids[k], e.1) in blocks;
        assert Named(ids, e.1);
        var b :| b in ids && ids[b] == e.1;
        assert Edge(g, k, b);
      }
    }
    if IssueReady(blocks, closed, ids[k]) {
      forall b | b in Needs(g, k) ensures b in Keyed(ids, closed) {
        assert Edge(g, k, b);
      }
    }
  }

  /** The graph says something of the issues that are open whenever all nameless ones are closed. */
  lemma KeyedStrict(nodes: seq<Node>, ids: map<string, Id>, created: seq<Issue>, blocks: set<(Id, Id)>, closed: set<Id>)
    requires Image(nodes, ids, created, blocks)
    ensures Keyed(ids, closed) < KeySet(nodes) ==> SomeOpen(created, closed)
    ensures (exists c | c in created :: c.id !in closed && Named(ids, c.id)) ==> Keyed(ids, closed) < KeySet(nodes)
  {
    hide Graph, KeySet;
    if c :| c in created && c.id !in closed && Named(ids, c.id) {
      var k :| k in ids && ids[k] == c.id;
      assert k !in Keyed(ids, closed) && k in ids.Keys;
    }
    if Keyed(ids, closed) < ids.Keys {
      var k :| k in ids.Keys && k !in Keyed(ids, closed);
      var c :| c in created && c.id == ids[k];
    }
  }

  lemma SomeIsReady(nodes: seq<Node>, ids: map<string, Id>, created: seq<Issue>, blocks: set<(Id, Id)>, closed: set<Id>)
    requires Image(nodes, ids, created, blocks) && SomeOpen(created, closed)
    requires NeverStuck(Graph(nodes), KeySet(nodes))
    requires forall a, b | Edge(Graph(nodes), a, b) :: a in ids && b in ids
    ensures SomeIssueReady(created, blocks, closed)
  {
    hide Graph, KeySet;
    var g, keys := Graph(nodes), KeySet(nodes);
    KeyedStrict(nodes, ids, created, blocks, closed);
    var c :| c in created && c.id !in closed;
    if Named(ids, c.id) {
      assert SomeReady(g, keys, Keyed(ids, closed));
      var k :| k in keys && Ready(g, Keyed(ids, closed), k);
      assert k in ids.Keys;
      ReadyMeansReady(nodes, ids, created, blocks, closed, k);
      var d :| d in created && d.id == ids[k];
    } else {
      assert forall e | e in blocks && e.0 == c.id :: (c.id, e.1) in blocks;
      assert IssueReady(blocks, closed, c.id);
    }
  }

  /** The issues that are closed when these keys are, and all nameless ones. */
  function ClosedFor(ids: map<string, Id>, created: seq<Issue>, done: set<string>): set<Id> {
    (set k | k in done && k in ids :: ids[k]) + (set c | c in created && !Named(ids, c.id) :: c.id)
  }

  lemma KeyedBack(ids: map<string, Id>, created: seq<Issue>, done: set<string>)
    requires done <= ids.Keys && forall x, y | x in ids && y in ids && ids[x] == ids[y] :: x == y
    ensures Keyed(ids, ClosedFor(ids, created, done)) == done
  {}

  lemma SomeNodeReady(nodes: seq<Node>, ids: map<string, Id>, created: seq<Issue>, blocks: set<(Id, Id)>, done: set<string>)
    requires Image(nodes, ids, created, blocks) && NeverStalls(created, blocks) && done < KeySet(nodes)
    requires forall a, b | Edge(Graph(nodes), a, b) :: a in ids && b in ids
    ensures SomeReady(Graph(nodes), KeySet(nodes), done)
  {
    hide Graph, KeySet;
    var closed := ClosedFor(ids, created, done);
    KeyedBack(ids, created, done);
    KeyedStrict(nodes, ids, created, blocks, closed);
    assert SomeIssueReady(created, blocks, closed);
    var c :| c in created && IssueReady(blocks, closed, c.id);
    assert Named(ids, c.id);
    var k :| k in ids && ids[k] == c.id;
    ReadyMeansReady(nodes, ids, created, blocks, closed, k);
    assert k in ids.Keys;
  }

  /** The created issues can be worked off without ever stalling exactly when the
      template's graph has no cycle. */
  lemma NeverStallsIffAcyclic(nodes: seq<Node>, ids: map<string, Id>, created: seq<Issue>, blocks: set<(Id, Id)>)
    requires Image(nodes, ids, created, blocks)
    requires forall a, b | Edge(Graph(nodes), a, b) :: a in ids && b in ids
    ensures NeverStalls(created, blocks) <==> Acyclic(Graph(nodes))
  {
    hide Graph, KeySet, Acyclic, Image;
    var g, keys := Graph(nodes), KeySet(nodes);
    ImageKeys(nodes, ids, created, blocks);
    assert forall a, b | Edge(g, a, b) :: a in keys && b in keys;
    NeverStuckIffAcyclic(g, keys);
    if NeverStuck(g, keys) {
      forall closed: set<Id> | SomeOpen(created, closed) ensures SomeIssueReady(created, blocks, closed) {
        SomeIsReady(nodes, ids, created, blocks, closed);
      }
    }
    if NeverStalls(created, blocks) {
      forall done | done < keys ensures SomeReady(g, keys, done) {
        SomeNodeReady(nodes, ids, created, blocks, done);
      }
    }
  }

  lemma ImageKeys(nodes: seq<Node>, ids: map<string, Id>, created: seq<Issue>, blocks: set<(Id, Id)>)
    requires Image(nodes, ids, created, blocks)
    ensures ids.Keys == KeySet(nodes)
  {}

  lemma GraphInside(nodes: seq<Node>)
    ensures forall a, b | Edge(Graph(nodes), a, b) :: a in KeySet(nodes) && b in KeySet(nodes)
  {
    forall a, b | Edge(Graph(nodes), a, b) ensures a in KeySet(nodes) && b in KeySet(nodes) {
      GraphEdges(nodes, KeySet(nodes), a, b);
      EdgesAre(nodes, KeySet(nodes), a, b);
      var x :| x in nodes && x.key == a;
      var i :| 0 <= i < |nodes| && nodes[i] == x;
      assert Keys(nodes)[i] == a;
    }
  }

  lemma IdsCorrespond(keys: seq<string>, created: seq<Issue>)
    requires |keys| == |created|
    ensures IdMap(keys, created).Keys == set k | k in keys
    ensures forall k | k in IdMap(keys, created) :: exists c | c in created :: c.id == IdMap(keys, created)[k]
  {
    var ids := IdMap(keys, created);
    IdMapKeys(keys, created);
    hide IdMap;
    forall k | k in ids ensures exists c | c in created :: c.id == ids[k] {
      var i := IdMapLast(keys, created, k);
      assert created[i] in created;
    }
  }

  lemma FreshOutside(created: seq<Issue>, opts: seq<CreateOptions>,
                     issues0: map<Id, Issue>, blocks0: set<(Id, Id)>, c: Issue, y: Id)
    requires FreshChildren(created, opts, issues0) && WithinDatabase(issues0, blocks0) && c in created
    ensures (c.id, y) !in blocks0
  {}

  /** Every instantiation gives the image of the template's graph. */
  lemma InstanceIsImage(nodes: seq<Node>, opts: seq<CreateOptions>, created: seq<Issue>,
                        issues0: map<Id, Issue>, blocks0: set<(Id, Id)>,
                        issues1: map<Id, Issue>, blocks1: set<(Id, Id)>)
    requires InstanceOf(nodes, opts, created, issues0, blocks0, issues1, blocks1) && WithinDatabase(issues0, blocks0)
    ensures Image(nodes, IdMap(Keys(nodes), created), created, blocks1)
  {
    var keys, ids := Keys(nodes), IdMap(Keys(nodes), created);
    IdsCorrespond(keys, created);
    IdMapInjective(keys, created);
    var edges := EdgesOf(nodes, ids.Keys);
    assert ids.Keys == KeySet(nodes) && Graph(nodes) == GraphOf(nodes, ids.Keys);
    assert Covers(ids, edges) && blocks1 == blocks0 + Wired(edges, ids) && FreshChildren(created, opts, issues0);
    hide *;
    WiredImage(nodes, opts, ids, created, issues0, blocks0, blocks1);
  }

  lemma WiredImage(nodes: seq<Node>, opts: seq<CreateOptions>, ids: map<string, Id>, created: seq<Issue>,
                   issues0: map<Id, Issue>, blocks0: set<(Id, Id)>, blocks1: set<(Id, Id)>)
    requires ids.Keys == KeySet(nodes) && Graph(nodes) == GraphOf(nodes, ids.Keys)
    requires forall x, y | x in ids && y in ids && ids[x] == ids[y] :: x == y
    requires forall k | k in ids :: exists c | c in created :: c.id == ids[k]
    requires FreshChildren(created, opts, issues0) && WithinDatabase(issues0, blocks0)
    requires Covers(ids, EdgesOf(nodes, ids.Keys)) && blocks1 == blocks0 + Wired(EdgesOf(nodes, ids.Keys), ids)
    ensures Image(nodes, ids, created, blocks1)
  {
    var edges := EdgesOf(nodes, ids.Keys);
    hide EdgesOf, KeySet, Graph, GraphOf, Edge, FreshChildren, WithinDatabase;
    forall a, b | a in ids && b in ids ensures (ids[a], ids[b]) in blocks1 <==> Edge(Graph(nodes), a, b) {
      GraphEdges(nodes, ids.Keys, a, b);
      WiredAt(edges, ids, a, b);
      var c :| c in created && c.id == ids[a];
      FreshOutside(created, opts, issues0, blocks0, c, ids[b]);
    }
    forall c, y | c in created && (c.id, y) in blocks1 ensures Named(ids, c.id) && Named(ids, y) {
      FreshOutside(created, opts, issues0, blocks0, c, y);
      var e :| e in edges && ids[e.0] == c.id && ids[e.1] == y;
    }
    forall a, y | a in ids && (ids[a], y) in blocks1 ensures Named(ids, y) {
      var c :| c in created && c.id == ids[a];
    }
  }

  /** However a molecule was instantiated, repeated keys or not, its steps can be worked off
      without stalling exactly when the template's graph is acyclic. Instantiation itself does
      not check. */
  lemma InstanceNeverStallsIff(nodes: seq<Node>, opts: seq<CreateOptions>, created: seq<Issue>,
                               issues0: map<Id, Issue>, blocks0: set<(Id, Id)>,
                               issues1: map<Id, Issue>, blocks1: set<(Id, Id)>)
    requires InstanceOf(nodes, opts, created, issues0, blocks0, issues1, blocks1) && WithinDatabase(issues0, blocks0)
    ensures NeverStalls(created, blocks1) <==> Acyclic(Graph(nodes))
  {
    InstanceIsImage(nodes, opts, created, issues0, blocks0, issues1, blocks1);
    GraphInside(nodes);
    ImageKeys(nodes, IdMap(Keys(nodes), created), created, blocks1);
    hide *;
    NeverStallsIffAcyclic(nodes, IdMap(Keys(nodes), created), created, blocks1);
  }

  /** A molecule that passed ValidateMolecule and was instantiated never stalls. */
  lemma ValidatedMoleculeNeverStalls(steps: seq<Step>, opts: seq<CreateOptions>, created: seq<Issue>,
                                     issues0: map<Id, Issue>, blocks0: set<(Id, Id)>,
                                     issues1: map<Id, Issue>, blocks1: set<(Id, Id)>)
    requires Sound(steps)
    requires InstanceOf(NodesOf(steps), opts, created, issues0, blocks0, issues1, blocks1)
    requires WithinDatabase(issues0, blocks0)
    ensures NeverStalls(created, blocks1)
    ensures forall i, j | 0 <= i < |steps| && 0 <= j < |steps| ::
              (created[i].id, created[j].id) in blocks1 <==> steps[j].ref in steps[i].needs
  {
    var nodes := NodesOf(steps);
    assert DistinctKeys(Keys(nodes));
    assert KeySet(nodes) == Refs(steps) by {
      forall k | k in Refs(steps) ensures k in KeySet(nodes) {
        var s :| s in steps && s.ref == k;
        var i :| 0 <= i < |steps| && steps[i] == s;
        assert Keys(nodes)[i] == k;
      }
    }
    GraphOfSteps(steps, KeySet(nodes));
    hide InstanceOf, WithinDatabase, Acyclic, NeverStalls, GraphOf, DepsOf;
    InstanceNeverStallsIff(nodes, opts, created, issues0, blocks0, issues1, blocks1);
    forall i, j | 0 <= i < |steps| && 0 <= j < |steps|
      ensures (created[i].id, created[j].id) in blocks1 <==> steps[j].ref in steps[i].needs
    {
      Isomorphism(nodes, opts, created, issues0, blocks0, issues1, blocks1, i, j);
    }
  }
}
