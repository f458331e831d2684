/**
 * The call graphs of the executor: which references validation sees, the cycle search, and the order in which
 * calls run.
 */
module CallGraphs {
  import opened Common
  import opened Json
  import Dag = DagSchedule

  datatype Kind = ObjectKind | ArrayKind | StringKind | NumberKind | BooleanKind | NullKind

  datatype Schema = Schema(kind: Option<Kind>, properties: map<string, Schema>, required: seq<string>,
                           additional: bool, items: Option<Schema>)

  datatype Tool = Tool(input: Schema, output: Option<Schema>, capability: string, source: string)

  datatype Node = Node(id: string, tool: string, arguments: Value, dependsOn: seq<string>)

  predicate IsReference(v: Value) {
    v.Obj? && v.fields.Keys == {"$ref"} && v.fields["$ref"].Str?
  }

  function Target(v: Value): string
    requires IsReference(v)
  {
    v.fields["$ref"].s
  }

  /** `collectReferences`: it descends everywhere. */
  function Refs(v: Value): set<string> {
    if IsReference(v) then {Target(v)}
    else
      match v
      case Arr(items) => set i, r | 0 <= i < |items| && r in Refs(items[i]) :: r
      case Obj(fields) => set k, r | k in fields && r in Refs(fields[k]) :: r
      case _ => {}
  }

  predicate Matches(v: Value, kind: Option<Kind>) {
    match kind
    case None => true
    case Some(ObjectKind) => v.Obj?
    case Some(ArrayKind) => v.Arr?
    case Some(StringKind) => v.Str?
    case Some(NumberKind) => v.Num?
    case Some(BooleanKind) => v.Bool?
    case Some(NullKind) => v.Null?
  }

  /** The references `validateValue` comes across: it follows only what the schema describes. */
  function Seen(v: Value, s: Schema): set<string> {
    if IsReference(v) then {Target(v)}
    else if !Matches(v, s.kind) then {}
    else if s.kind == Some(ObjectKind) then
      set k, r | k in v.fields && k in s.properties && r in Seen(v.fields[k], s.properties[k]) :: r
    else if s.kind == Some(ArrayKind) && s.items.Some? then
      set i, r | 0 <= i < |v.items| && r in Seen(v.items[i], s.items.value) :: r
    else {}
  }

  lemma {:induction false} SeenAreRefs(v: Value, s: Schema)
    ensures Seen(v, s) <= Refs(v)
    decreases v
  {
    if !IsReference(v) && Matches(v, s.kind) {
      if s.kind == Some(ObjectKind) {
        forall k | k in v.fields && k in s.properties ensures Seen(v.fields[k], s.properties[k]) <= Refs(v.fields[k]) {
          SeenAreRefs(v.fields[k], s.properties[k]);
        }
      } else if s.kind == Some(ArrayKind) && s.items.Some? {
        forall i | 0 <= i < |v.items| ensures Seen(v.items[i], s.items.value) <= Refs(v.items[i]) {
          SeenAreRefs(v.items[i], s.items.value);
        }
      }
    }
  }

  /** `fits` is the comparison of schemas along an edge, `admits` the enumeration and format constraints. */
  datatype Rules = Rules(fits: (Schema, Schema) -> bool, admits: (Value, Schema) -> bool)

  function ById(nodes: seq<Node>): map<string, Node> {
    if nodes == [] then map[] else map[nodes[0].id := nodes[0]] + ById(nodes[1..])
  }

  /** `validateValue` reports nothing. */
  predicate Fits(v: Value, s: Schema, outputs: map<string, Option<Schema>>, rules: Rules) {
    if IsReference(v) then
      && Target(v) in outputs && outputs[Target(v)].Some?
      && rules.fits(outputs[Target(v)].value, s)
    else if !Matches(v, s.kind) || !rules.admits(v, s) then false
    else if s.kind == Some(ObjectKind) then
      && (forall name :: name in s.required ==> name in v.fields)
      && (forall k :: k in v.fields ==>
            if k in s.properties then Fits(v.fields[k], s.properties[k], outputs, rules) else s.additional)
    else if s.kind == Some(ArrayKind) && s.items.Some? then
      forall i :: 0 <= i < |v.items| ==> Fits(v.items[i], s.items.value, outputs, rules)
    else true
  }

  lemma {:induction false} FitsSeesExisting(v: Value, s: Schema, outputs: map<string, Option<Schema>>, rules: Rules)
    requires Fits(v, s, outputs, rules)
    ensures Seen(v, s) <= outputs.Keys
    decreases v
  {
    if !IsReference(v) {
      if s.kind == Some(ObjectKind) {
        forall k | k in v.fields && k in s.properties ensures Seen(v.fields[k], s.properties[k]) <= outputs.Keys {
          FitsSeesExisting(v.fields[k], s.properties[k], outputs, rules);
        }
      } else if s.kind == Some(ArrayKind) && s.items.Some? {
        forall i | 0 <= i < |v.items| ensures Seen(v.items[i], s.items.value) <= outputs.Keys {
          FitsSeesExisting(v.items[i], s.items.value, outputs, rules);
        }
      }
    }
  }

  // ---------------------------------------------------------------- valid graphs

  type Tools = map<string, Tool>

  function Ids(nodes: seq<Node>): set<string> { set n | n in nodes :: n.id }

  ghost predicate UniqueIds(nodes: seq<Node>) {
    forall i, j :: 0 <= i < j < |nodes| ==> nodes[i].id != nodes[j].id
  }

  /** What each node delivers, as far as validation knows. */
  function OutputSchemas(nodes: seq<Node>, tools: Tools): map<string, Option<Schema>> {
    map id | id in ById(nodes) :: if ById(nodes)[id].tool in tools then tools[ById(nodes)[id].tool].output else None
  }

  /** What is right about one node. */
  predicate NodeFits(n: Node, ids: set<string>, schemas: map<string, Option<Schema>>, tools: Tools, rules: Rules) {
    && (forall d :: d in n.dependsOn ==> d in ids)
    && n.tool in tools
    && Fits(n.arguments, tools[n.tool].input, schemas, rules)
  }

  /** The edges validation checks: declared dependencies and the references it has seen. */
  function Edges(n: Node, tools: Tools): set<string> {
    Dag.Set(n.dependsOn) + if n.tool in tools then Seen(n.arguments, tools[n.tool].input) else {}
  }

  /** The edges the executor goes by. */
  function Needs(n: Node): set<string> { Dag.Set(n.dependsOn) + Refs(n.arguments) }

  ghost predicate AllFit(nodes: seq<Node>, tools: Tools, rules: Rules) {
    && UniqueIds(nodes)
    && forall n :: n in nodes ==> n.id != "" && NodeFits(n, Ids(nodes), OutputSchemas(nodes, tools), tools, rules)
  }

  ghost function Adjacency(nodes: seq<Node>, tools: Tools): Dag.Deps {
    map id | id in ById(nodes) :: Edges(ById(nodes)[id], tools)
  }

  ghost function FullNeeds(nodes: seq<Node>): Dag.Deps {
    map id | id in ById(nodes) :: Needs(ById(nodes)[id])
  }

  ghost predicate ValidGraph(nodes: seq<Node>, tools: Tools, rules: Rules) {
    AllFit(nodes, tools, rules) && !Dag.HasCycle(Adjacency(nodes, tools))
  }

  /** Every reference sits where the schema of its tool describes a value. */
  predicate Covered(nodes: seq<Node>, tools: Tools) {
    forall n :: n in nodes && n.tool in tools ==> Refs(n.arguments) <= Seen(n.arguments, tools[n.tool].input)
  }

  lemma {:induction false} ByIdOf(nodes: seq<Node>)
    ensures ById(nodes).Keys == Ids(nodes)
    ensures forall id :: id in ById(nodes) ==> ById(nodes)[id] in nodes && ById(nodes)[id].id == id
  {
    if nodes != [] {
      ByIdOf(nodes[1..]);
      assert nodes == [nodes[0]] + nodes[1..];
    }
  }

  lemma OwnNode(nodes: seq<Node>, n: Node)
    requires UniqueIds(nodes) && n in nodes
    ensures n.id in ById(nodes) && ById(nodes)[n.id] == n && Known(ById(nodes), n)
  {
    ByIdOf(nodes);
    assert n.id in Ids(nodes);
    var m := ById(nodes)[n.id];
    assert m in nodes && m.id == n.id;
  }

  lemma NodeCovered(n: Node, tools: Tools)
    requires n.tool in tools && Refs(n.arguments) <= Seen(n.arguments, tools[n.tool].input)
    ensures Needs(n) == Edges(n, tools)
  {
    SeenAreRefs(n.arguments, tools[n.tool].input);
  }

  /** Where validation sees every reference, its edges are the executor's. */
  lemma CoveredNeeds(nodes: seq<Node>, tools: Tools, rules: Rules)
    requires AllFit(nodes, tools, rules) && Covered(nodes, tools)
    ensures FullNeeds(nodes) == Adjacency(nodes, tools)
  {
    hide Refs, Seen, Fits, Needs, Edges, OutputSchemas, ById;
    ByIdOf(nodes);
    forall id | id in ById(nodes) ensures Needs(ById(nodes)[id]) == Edges(ById(nodes)[id], tools) {
      NodeCovered(ById(nodes)[id], tools);
    }
  }

  // ---------------------------------------------------------------- the cycle search of the validator

  lemma PathExtends(edges: Dag.Deps, stack: seq<string>, id: string, d: string)
    requires Dag.Closed(edges) && id in edges && Dag.Path(edges, stack + [id]) && d in edges[id]
    ensures Dag.Path(edges, stack + [id] + [d]) && Dag.Set(stack + [id]) == Dag.Set(stack) + {id}
  {
    assert (stack + [id])[|stack|] == id;
  }

  lemma Finished(order: seq<string>, visited: set<string>, active: set<string>, id: string)
    requires Dag.Set(order) == visited - active && id in visited && id in active
    ensures id !in order
    ensures Dag.Set(order + [id]) == visited - (active - {id})
  {
    assert id !in Dag.Set(order);
    assert Dag.Set(order + [id]) == Dag.Set(order) + {id};
  }

  /**
   * `detectCycles` marks a node visited when it enters it and goes on after a report, so once it has reported
   * one cycle it may miss others; whether it reports any is exact.
   */
  class CycleReport {
    const edges: Dag.Deps
    var visited: set<string>
    var active: set<string>
    /** The nodes finished, while nothing has been reported. */
    ghost var order: seq<string>
    ghost var found: bool

    /** After the first cycle only the fact that there is one can be relied on. */
    ghost predicate Valid()
      reads this
    {
      && Dag.Closed(edges) && active <= visited <= edges.Keys
      && (if found then Dag.HasCycle(edges)
          else Dag.Set(order) == visited - active && Dag.Postorder(edges, order))
    }

    constructor (edges: Dag.Deps)
      requires Dag.Closed(edges)
      ensures Valid() && this.edges == edges && visited == {} && active == {} && !found
    {
      this.edges := edges;
      visited, active, order, found := {}, {}, [], false;
    }

    method Walk(id: string, ghost stack: seq<string>) returns (cyclic: bool)
      requires Valid() && id in edges
      requires !found ==> Dag.Set(stack) == active && Dag.Path(edges, stack + [id])
      modifies this
      ensures Valid() && active == old(active) && old(visited) <= visited && (old(found) ==> found)
      ensures cyclic ==> found
      ensures !cyclic && !old(found) ==> !found && id in visited && id !in active
      decreases edges.Keys - visited
    {
      if id in active {
        if !found { Dag.ClosingCycle(edges, stack, id); }
        found := true;
        return true;
      }
      if id in visited { return false; }
      hide Dag.Postorder, Dag.HasCycle, Dag.Path, Dag.Set;
      visited := visited + {id};
      active := active + {id};
      cyclic := false;
      var rest := edges[id];
      ghost var path := stack + [id];
      while rest != {} && !cyclic
        invariant Valid() && active == old(active) + {id} && old(visited) + {id} <= visited && rest <= edges[id]
        invariant old(found) ==> found
        invariant cyclic ==> found
        invariant !cyclic && !old(found) ==> !found && edges[id] - rest <= visited - active
        decreases |rest|, !cyclic
      {
        var d :| d in rest;
        rest := rest - {d};
        if !found { PathExtends(edges, stack, id, d); }
        ghost var before := visited - active;
        cyclic := Walk(d, path);
        assert before <= visited - active;
      }
      if !found {
        assert edges[id] - rest == edges[id];
        Finished(order, visited, active, id);
        Dag.FinishNode(edges, order, id);
        order := order + [id];
      }
      active := active - {id};
    }

    /** The nodes reported: some exactly when there is a cycle. */
    method Report() returns (reported: seq<string>)
      requires Valid() && visited == {} && active == {} && !found
      modifies this
      ensures reported != [] <==> Dag.HasCycle(edges)
      ensures reported == [] ==> Dag.Postorder(edges, order) && Dag.Set(order) == edges.Keys
    {
      reported := [];
      var rest := edges.Keys;
      while rest != {}
        invariant Valid() && active == {} && rest <= edges.Keys
        invariant reported != [] <==> found
        invariant !found ==> edges.Keys - rest <= visited
        decreases |rest|
      {
        var id :| id in rest;
        rest := rest - {id};
        var cyclic := Walk(id, []);
        if cyclic { reported := reported + [id]; }
      }
      if !found {
        assert forall id :: id in edges ==> id in Dag.Set(order);
        Dag.OrderedHasNoCycle(edges, order);
      }
    }
  }

  datatype Diagnostic = GraphShape | DuplicateNode | UnknownTool | MissingDependency | BadValue | CyclicGraph

  /** The first pass of `validateCallGraph`. */
  method CheckIds(nodes: seq<Node>) returns (ids: set<string>, diagnostics: seq<Diagnostic>)
    ensures ids == Ids(nodes)
    ensures diagnostics == [] <==> UniqueIds(nodes) && forall n :: n in nodes ==> n.id != ""
  {
    ids, diagnostics := {}, [];
    for i := 0 to |nodes|
      invariant ids == Ids(nodes[..i])
      invariant diagnostics == [] <==> UniqueIds(nodes[..i]) && forall n :: n in nodes[..i] ==> n.id != ""
    {
      var before, n := nodes[..i], nodes[i];
      assert nodes[..i + 1] == before + [n];
      assert n.id in ids <==> exists k :: 0 <= k < i && nodes[k].id == n.id;
      if n.id == "" { diagnostics := diagnostics + [GraphShape]; }
      if n.id in ids { diagnostics := diagnostics + [DuplicateNode]; } else { ids := ids + {n.id}; }
    }
    assert nodes[..|nodes|] == nodes;
  }

  /** What the second pass finds wrong with one node. */
  method CheckNode(n: Node, ids: set<string>, schemas: map<string, Option<Schema>>, tools: Tools, rules: Rules)
    returns (edges: set<string>, diagnostics: seq<Diagnostic>)
    ensures edges == Edges(n, tools) * ids
    ensures diagnostics == [] <==> NodeFits(n, ids, schemas, tools, rules)
  {
    hide Seen, Fits;
    edges, diagnostics := {}, [];
    for i := 0 to |n.dependsOn|
      invariant edges == Dag.Set(n.dependsOn[..i]) * ids
      invariant diagnostics == [] <==> forall d :: d in n.dependsOn[..i] ==> d in ids
    {
      assert n.dependsOn[..i + 1] == n.dependsOn[..i] + [n.dependsOn[i]];
      if n.dependsOn[i] in ids {
        edges := edges + {n.dependsOn[i]};
      } else {
        diagnostics := diagnostics + [MissingDependency];
      }
    }
    assert n.dependsOn[..|n.dependsOn|] == n.dependsOn;
    if n.tool !in tools {
      diagnostics := diagnostics + [UnknownTool];
    } else {
      edges := edges + Seen(n.arguments, tools[n.tool].input) * ids;
      if !Fits(n.arguments, tools[n.tool].input, schemas, rules) { diagnostics := diagnostics + [BadValue]; }
    }
  }

  /** The second pass: the edges as validation knows them. */
  method CheckNodes(nodes: seq<Node>, tools: Tools, rules: Rules) returns (edges: Dag.Deps, diagnostics: seq<Diagnostic>)
    ensures edges.Keys == Ids(nodes) && Dag.Closed(edges)
    ensures diagnostics == [] <==>
            forall n :: n in nodes ==> NodeFits(n, Ids(nodes), OutputSchemas(nodes, tools), tools, rules)
    ensures UniqueIds(nodes) && diagnostics == [] ==> edges == Adjacency(nodes, tools)
  {
    hide NodeFits, Edges, OutputSchemas, UniqueIds;
    var ids, schemas := Ids(nodes), OutputSchemas(nodes, tools);
    edges, diagnostics := map id | id in ids :: {}, [];
    for i := 0 to |nodes|
      invariant edges.Keys == ids
      invariant forall id :: id in ids ==> edges[id] <= ids
      invariant diagnostics == [] <==> forall k :: 0 <= k < i ==> NodeFits(nodes[k], ids, schemas, tools, rules)
      invariant UniqueIds(nodes) ==>
                  (forall k :: 0 <= k < i ==> edges[OwnId(nodes, k)] == Edges(nodes[k], tools) * ids)
                  && (forall k :: i <= k < |nodes| ==> edges[OwnId(nodes, k)] == {})
    {
      var found, complaints := CheckNode(nodes[i], ids, schemas, tools, rules);
      var own := OwnId(nodes, i);
      assert UniqueIds(nodes) ==> forall k :: 0 <= k < |nodes| && OwnId(nodes, k) == own ==> k == i by {
        if UniqueIds(nodes) { OtherIds(nodes, i); }
      }
      diagnostics := diagnostics + complaints;
      edges := edges[own := edges[own] + found];
    }
    if UniqueIds(nodes) && diagnostics == [] { CollectedEdges(nodes, tools, rules, edges); }
  }

  function OwnId(nodes: seq<Node>, i: nat): (id: string)
    requires i < |nodes|
    ensures id in Ids(nodes)
  {
    assert nodes[i] in nodes;
    nodes[i].id
  }

  lemma OtherIds(nodes: seq<Node>, i: nat)
    requires UniqueIds(nodes) && i < |nodes|
    ensures forall k :: 0 <= k < |nodes| && OwnId(nodes, k) == OwnId(nodes, i) ==> k == i
  {
  }

  lemma CollectedEdges(nodes: seq<Node>, tools: Tools, rules: Rules, edges: Dag.Deps)
    requires UniqueIds(nodes) && edges.Keys == Ids(nodes)
    requires forall k :: 0 <= k < |nodes| ==> NodeFits(nodes[k], Ids(nodes), OutputSchemas(nodes, tools), tools, rules)
    requires forall k :: 0 <= k < |nodes| ==> edges[OwnId(nodes, k)] == Edges(nodes[k], tools) * Ids(nodes)
    ensures edges == Adjacency(nodes, tools)
  {
    hide NodeFits, OutputSchemas, Edges, ById, Ids, UniqueIds;
    ByIdOf(nodes);
    forall id | id in edges ensures id in ById(nodes) && edges[id] == Edges(ById(nodes)[id], tools) {
      var i :| 0 <= i < |nodes| && nodes[i] == ById(nodes)[id];
      assert OwnId(nodes, i) == id;
      NodeSeesExisting(nodes, nodes[i], tools, rules);
    }
  }

  lemma NodeSeesExisting(nodes: seq<Node>, n: Node, tools: Tools, rules: Rules)
    requires NodeFits(n, Ids(nodes), OutputSchemas(nodes, tools), tools, rules)
    ensures Edges(n, tools) <= Ids(nodes)
  {
    hide Seen, Fits;
    ByIdOf(nodes);
    FitsSeesExisting(n.arguments, tools[n.tool].input, OutputSchemas(nodes, tools), rules);
  }

  /** A graph is accepted exactly when its nodes fit and the edges validation knows of have no cycle. */
  method ValidateCallGraph(nodes: seq<Node>, tools: Tools, rules: Rules)
    returns (valid: bool, diagnostics: seq<Diagnostic>, ghost order: seq<string>)
    ensures valid <==> ValidGraph(nodes, tools, rules)
    ensures valid <==> diagnostics == []
    ensures valid ==> Dag.Postorder(Adjacency(nodes, tools), order) && Dag.Set(order) == Ids(nodes)
  {
    hide NodeFits, OutputSchemas, UniqueIds, Adjacency;
    var _, first := CheckIds(nodes);
    var edges, second := CheckNodes(nodes, tools, rules);
    var search := new CycleReport(edges);
    var reported := search.Report();
    order := search.order;
    diagnostics := first + second + if reported != [] then [CyclicGraph] else [];
    valid := diagnostics == [];
  }

  // ---------------------------------------------------------------- the order of execution

  function Names(nodes: seq<Node>): (names: seq<string>)
    ensures |names| == |nodes| && forall i :: 0 <= i < |nodes| ==> names[i] == nodes[i].id
  {
    seq(|nodes|, i requires 0 <= i < |nodes| => nodes[i].id)
  }

  /** Each node once, after everything it depends on or refers to. */
  ghost predicate OrderOf(nodes: seq<Node>, ordered: seq<Node>) {
    && (forall i :: 0 <= i < |ordered| ==> ordered[i] in nodes)
    && Ids(ordered) == Ids(nodes)
    && Dag.Postorder(FullNeeds(nodes), Names(ordered))
  }

  ghost predicate Indexes(byId: map<string, Node>, needs: Dag.Deps) {
    && needs.Keys == byId.Keys
    && forall id :: id in byId ==> byId[id].id == id && Needs(byId[id]) == needs[id]
  }

  ghost predicate Known(byId: map<string, Node>, n: Node) {
    n.id in byId && byId[n.id] == n
  }

  /** The nodes listed so far are nodes of the graph, each after everything it needs. */
  ghost predicate Listed(byId: map<string, Node>, needs: Dag.Deps, ordered: seq<Node>, visited: set<string>) {
    && (forall i :: 0 <= i < |ordered| ==> Known(byId, ordered[i]))
    && visited == Dag.Set(Names(ordered)) && Dag.Postorder(needs, Names(ordered))
  }

  lemma ListNode(byId: map<string, Node>, needs: Dag.Deps, ordered: seq<Node>, visited: set<string>, n: Node)
    requires Listed(byId, needs, ordered, visited) && Known(byId, n) && n.id !in visited
    requires n.id in needs && needs[n.id] <= visited
    ensures Listed(byId, needs, ordered + [n], visited + {n.id})
  {
    hide Known;
    assert Names(ordered + [n]) == Names(ordered) + [n.id];
    assert Dag.Set(Names(ordered) + [n.id]) == Dag.Set(Names(ordered)) + {n.id};
    Dag.FinishNode(needs, Names(ordered), n.id);
  }

  /** All nodes can be listed, in this order; a search then never fails for want of a node. */
  ghost predicate Sorted(needs: Dag.Deps, finish: seq<string>) {
    Dag.Closed(needs) && Dag.Postorder(needs, finish) && Dag.Set(finish) == needs.Keys
  }

  lemma NeedOf(byId: map<string, Node>, needs: Dag.Deps, finish: seq<string>, n: Node, d: string)
    requires Indexes(byId, needs) && Known(byId, n) && d in Needs(n) && Sorted(needs, finish)
    ensures d in byId && Rank(finish, d) < Rank(finish, n.id)
  {
    assert d in needs[n.id];
    NeedsRankLower(needs, finish, n.id, d);
  }

  lemma NeedOnPath(byId: map<string, Node>, needs: Dag.Deps, path: seq<string>, n: Node, d: string)
    requires Indexes(byId, needs) && Known(byId, n) && d in Needs(n) && Dag.Path(needs, path + [n.id]) && d in byId
    ensures Known(byId, byId[d]) && byId[d].id == d && Dag.Path(needs, path + [n.id] + [d])
  {
    var p := path + [n.id];
    assert forall i :: 0 <= i < |p| ==> (p + [d])[i] == p[i];
  }

  /** None of the nodes that are being visited has been listed. */
  ghost predicate Apart(path: seq<string>, visited: set<string>) { Dag.Set(path) !! visited }

  lemma NextOnPath(byId: map<string, Node>, needs: Dag.Deps, path: seq<string>, n: Node) returns (d: string)
    requires Indexes(byId, needs) && Known(byId, n) && Dag.Path(needs, path + [n.id]) && n.id in path
    ensures d in Needs(n) && d in Dag.Set(path + [n.id])
  {
    var i :| 0 <= i < |path| && path[i] == n.id;
    var p := path + [n.id];
    d := p[i + 1];
    assert d in needs[p[i]];
  }

  /** A node that is being visited already still needs another one that is. */
  lemma NotOnPath(byId: map<string, Node>, needs: Dag.Deps, path: seq<string>, n: Node, visited: set<string>)
    requires Indexes(byId, needs) && Known(byId, n) && Dag.Path(needs, path + [n.id])
    requires Needs(n) <= visited && Apart(path + [n.id], visited)
    ensures n.id !in visited && Apart(path, visited + {n.id}) && n.id in needs && needs[n.id] <= visited
  {
    assert n.id in Dag.Set(path + [n.id]) && Dag.Set(path) <= Dag.Set(path + [n.id]);
    if n.id in path {
      var d := NextOnPath(byId, needs, path, n);
      assert false;
    }
  }

  /**
   * `visit` of `topologicalOrder`.  It has no guard of its own: a missing node makes it throw, and so does a
   * cycle, once the stack has no room for another frame.
   */
  class Ordering {
    const byId: map<string, Node>
    var visited: set<string>
    var ordered: seq<Node>

    constructor (byId: map<string, Node>)
      ensures this.byId == byId && visited == {} && ordered == []
    {
      this.byId := byId;
      visited, ordered := {}, [];
    }

    /** `path` are the nodes being visited, and `finish` is any order there may be. */
    method Visit(n: Node, frames: nat, ghost needs: Dag.Deps, ghost path: seq<string>, ghost finish: seq<string>)
      returns (ok: bool)
      requires Indexes(byId, needs) && Known(byId, n) && Listed(byId, needs, ordered, visited)
      requires Dag.Path(needs, path + [n.id]) && Apart(path, visited)
      modifies this
      ensures ok ==> Listed(byId, needs, ordered, visited) && n.id in visited && old(visited) <= visited
      ensures ok ==> Apart(path, visited)
      ensures Sorted(needs, finish) && Rank(finish, n.id) < frames ==> ok
      decreases frames
    {
      hide Indexes, Known, Listed, Rank, Needs, Sorted, Apart, Dag.Path;
      if frames == 0 { return false; }
      if n.id in visited { return true; }
      var rest := Needs(n);
      ghost var deeper := path + [n.id];
      PathDeeper(path, n.id, visited);
      while rest != {}
        invariant Listed(byId, needs, ordered, visited) && rest <= Needs(n) && Needs(n) - rest <= visited
        invariant old(visited) <= visited && Apart(deeper, visited)
        decreases |rest|
      {
        var d :| d in rest;
        rest := rest - {d};
        if Sorted(needs, finish) { NeedOf(byId, needs, finish, n, d); }
        if d !in byId { return false; }
        NeedOnPath(byId, needs, path, n, d);
        ok := Visit(byId[d], frames - 1, needs, deeper, finish);
        if !ok { return false; }
      }
      assert Needs(n) - rest == Needs(n);
      NotOnPath(byId, needs, path, n, visited);
      ListNode(byId, needs, ordered, visited, n);
      visited := visited + {n.id};
      ordered := ordered + [n];
      return true;
    }
  }

  lemma PathDeeper(path: seq<string>, id: string, visited: set<string>)
    requires Apart(path, visited) && id !in visited
    ensures Apart(path + [id], visited)
  {
  }

  ghost function Rank(finish: seq<string>, id: string): nat {
    if finish == [] || finish[0] == id then 0 else 1 + Rank(finish[1..], id)
  }

  lemma {:induction false} RankIs(finish: seq<string>, i: nat)
    requires i < |finish| && Dag.Distinct(finish)
    ensures Rank(finish, finish[i]) == i
  {
    if i > 0 {
      RankIs(finish[1..], i - 1);
    }
  }

  lemma NeedsRankLower(needs: Dag.Deps, finish: seq<string>, id: string, d: string)
    requires Dag.Postorder(needs, finish) && id in Dag.Set(finish) && id in needs && d in needs[id]
    ensures Rank(finish, d) < Rank(finish, id)
  {
    var i :| 0 <= i < |finish| && finish[i] == id;
    assert d in finish[..i];
    var j :| 0 <= j < i && finish[j] == d;
    RankIs(finish, i);
    RankIs(finish, j);
  }

  lemma NodesAreIndexed(nodes: seq<Node>)
    ensures Indexes(ById(nodes), FullNeeds(nodes))
  {
    ByIdOf(nodes);
  }

  lemma ListedInGraph(nodes: seq<Node>, needs: Dag.Deps, ordered: seq<Node>, visited: set<string>, i: nat)
    requires Listed(ById(nodes), needs, ordered, visited) && i < |ordered|
    ensures ordered[i] in nodes && ordered[i].id in Ids(nodes)
  {
    ByIdOf(nodes);
    hide ById, Ids, Dag.Postorder;
    assert Known(ById(nodes), ordered[i]);
  }

  lemma VisitedIsListed(nodes: seq<Node>, needs: Dag.Deps, ordered: seq<Node>, visited: set<string>, id: string)
    requires Listed(ById(nodes), needs, ordered, visited) && id in visited
    ensures id in Ids(ordered)
  {
    hide ById, Known, Dag.Postorder;
    var i :| 0 <= i < |ordered| && Names(ordered)[i] == id;
    assert ordered[i] in ordered;
  }

  lemma IdsWithin(nodes: seq<Node>, ids: set<string>)
    requires forall i :: 0 <= i < |nodes| ==> nodes[i].id in ids
    ensures Ids(nodes) <= ids
  {
  }

  lemma ListedOrder(byId: map<string, Node>, needs: Dag.Deps, ordered: seq<Node>, visited: set<string>)
    requires Listed(byId, needs, ordered, visited)
    ensures Dag.Postorder(needs, Names(ordered))
  {
  }

  lemma AllListed(nodes: seq<Node>, ordered: seq<Node>, visited: set<string>)
    requires Listed(ById(nodes), FullNeeds(nodes), ordered, visited)
    requires forall k :: 0 <= k < |nodes| ==> nodes[k].id in visited
    ensures OrderOf(nodes, ordered)
  {
    hide Listed, FullNeeds, Dag.Postorder, ById, Ids, Known, Names;
    ListedOrder(ById(nodes), FullNeeds(nodes), ordered, visited);
    forall i | 0 <= i < |ordered| ensures ordered[i] in nodes && ordered[i].id in Ids(nodes) {
      ListedInGraph(nodes, FullNeeds(nodes), ordered, visited, i);
    }
    forall id | id in visited ensures id in Ids(ordered) {
      VisitedIsListed(nodes, FullNeeds(nodes), ordered, visited, id);
    }
    IdsWithin(nodes, visited);
    IdsWithin(ordered, Ids(nodes));
  }

  /** Everything the executor follows from a node is a node. */
  ghost predicate NamesExist(nodes: seq<Node>) {
    forall n :: n in nodes ==> Needs(n) <= Ids(nodes)
  }

  lemma NamesAreClosed(nodes: seq<Node>)
    requires NamesExist(nodes)
    ensures Dag.Closed(FullNeeds(nodes)) && FullNeeds(nodes).Keys == Ids(nodes)
  {
    hide Needs, ById;
    ByIdOf(nodes);
  }

  /** What an order of the nodes shows about the names in it. */
  lemma OrderedNamesExist(nodes: seq<Node>, ordered: seq<Node>, n: Node)
    requires UniqueIds(nodes) && OrderOf(nodes, ordered) && n in nodes
    ensures Needs(n) <= Ids(nodes)
  {
    hide Needs, UniqueIds, ById;
    OwnNode(nodes, n);
    IdIn(nodes, n);
    var i := PositionOf(ordered, n.id);
    forall d | d in Needs(n) ensures d in Ids(nodes) {
      assert d in FullNeeds(nodes)[Names(ordered)[i]];
      assert d in Names(ordered)[..i];
      var k :| 0 <= k < i && Names(ordered)[k] == d;
      IdIn(nodes, ordered[k]);
    }
  }

  lemma IdIn(nodes: seq<Node>, n: Node)
    requires n in nodes
    ensures n.id in Ids(nodes)
  {
  }

  lemma PositionOf(ordered: seq<Node>, id: string) returns (i: nat)
    requires id in Ids(ordered)
    ensures i < |ordered| && ordered[i].id == id
  {
    var n :| n in ordered && n.id == id;
    i :| 0 <= i < |ordered| && ordered[i] == n;
  }

  lemma OrderedHasNoCycle(nodes: seq<Node>, ordered: seq<Node>)
    requires OrderOf(nodes, ordered)
    ensures !Dag.HasCycle(FullNeeds(nodes))
  {
    hide Needs;
    ByIdOf(nodes);
    forall id | id in FullNeeds(nodes) ensures id in Names(ordered) {
      var i := PositionOf(ordered, id);
      assert Names(ordered)[i] == id;
    }
    Dag.OrderedHasNoCycle(FullNeeds(nodes), Names(ordered));
  }

  /** The nodes behind a list of ids. */
  ghost function Listing(nodes: seq<Node>, ids: seq<string>): (listing: seq<Node>)
    requires forall i :: 0 <= i < |ids| ==> ids[i] in ById(nodes)
    ensures |listing| == |ids| && forall i :: 0 <= i < |ids| ==> listing[i] == ById(nodes)[ids[i]]
  {
    seq(|ids|, i requires 0 <= i < |ids| => ById(nodes)[ids[i]])
  }

  lemma AcyclicHasOrder(nodes: seq<Node>) returns (ordered: seq<Node>)
    requires NamesExist(nodes) && !Dag.HasCycle(FullNeeds(nodes))
    ensures OrderOf(nodes, ordered)
  {
    ByIdOf(nodes);
    NamesAreClosed(nodes);
    hide Needs, ById, NamesExist, Dag.HasCycle, Dag.Closed;
    NothingListed(FullNeeds(nodes));
    var finish := Dag.AcyclicHasPostorder(FullNeeds(nodes), []);
    forall i | 0 <= i < |finish| ensures finish[i] in ById(nodes) { assert finish[i] in Dag.Set(finish); }
    ordered := Listing(nodes, finish);
    assert Names(ordered) == finish;
    ListingIds(nodes, ordered, finish);
  }

  lemma NothingListed(deps: Dag.Deps)
    ensures Dag.Postorder(deps, [])
  {
  }

  lemma ListingIds(nodes: seq<Node>, ordered: seq<Node>, finish: seq<string>)
    requires Names(ordered) == finish && Dag.Set(finish) == Ids(nodes)
    ensures Ids(ordered) == Ids(nodes)
  {
    hide Ids;
    forall i | 0 <= i < |ordered| ensures ordered[i].id in Dag.Set(finish) { assert finish[i] in Dag.Set(finish); }
    IdsWithin(ordered, Dag.Set(finish));
    forall id | id in Dag.Set(finish) ensures id in Ids(ordered) {
      var i :| 0 <= i < |finish| && finish[i] == id;
      IdIn(ordered, ordered[i]);
    }
  }

  /** What the executor needs of a graph, beyond what validation gives it. */
  ghost predicate Orderable(nodes: seq<Node>) {
    && (forall n :: n in nodes ==> Refs(n.arguments) <= Ids(nodes))
    && !Dag.HasCycle(FullNeeds(nodes))
  }

  /**
   * A valid graph can be ordered exactly when every name it refers to is a node and nothing comes to need
   * itself.
   */
  lemma OrderableExactly(nodes: seq<Node>, tools: Tools, rules: Rules)
    requires ValidGraph(nodes, tools, rules)
    ensures (exists ordered :: OrderOf(nodes, ordered)) <==> Orderable(nodes)
  {
    ValidNamesExist(nodes, tools, rules);
    assert UniqueIds(nodes);
    hide OrderOf, FullNeeds, Dag.HasCycle, Refs, UniqueIds, ValidGraph;
    if ordered :| OrderOf(nodes, ordered) {
      OrderedIsOrderable(nodes, ordered);
    }
    if Orderable(nodes) {
      var _ := AcyclicHasOrder(nodes);
    }
  }

  /** Validation has checked the declared dependencies. */
  lemma ValidNamesExist(nodes: seq<Node>, tools: Tools, rules: Rules)
    requires ValidGraph(nodes, tools, rules)
    ensures NamesExist(nodes) <==> forall n :: n in nodes ==> Refs(n.arguments) <= Ids(nodes)
  {
    hide Refs, Fits, Seen, Adjacency, Dag.HasCycle, OutputSchemas;
    forall n | n in nodes ensures Needs(n) <= Ids(nodes) <==> Refs(n.arguments) <= Ids(nodes) {
      assert NodeFits(n, Ids(nodes), OutputSchemas(nodes, tools), tools, rules);
    }
  }

  /** Covered graphs are among them: what validation has checked is then all there is. */
  lemma CoveredIsOrderable(nodes: seq<Node>, tools: Tools, rules: Rules)
    requires ValidGraph(nodes, tools, rules) && Covered(nodes, tools)
    ensures Orderable(nodes)
  {
    hide Needs, Edges, Refs, Seen, Fits, OutputSchemas, ById, Dag.HasCycle;
    CoveredNeeds(nodes, tools, rules);
    forall n | n in nodes ensures Refs(n.arguments) <= Ids(nodes) {
      assert NodeFits(n, Ids(nodes), OutputSchemas(nodes, tools), tools, rules);
      ByIdOf(nodes);
      FitsSeesExisting(n.arguments, tools[n.tool].input, OutputSchemas(nodes, tools), rules);
      OutputsAreNodes(nodes, tools);
    }
  }

  lemma OutputsAreNodes(nodes: seq<Node>, tools: Tools)
    ensures OutputSchemas(nodes, tools).Keys == Ids(nodes)
  {
    ByIdOf(nodes);
  }

  lemma RefsIn(v: Value, k: string)
    requires v.Obj? && !IsReference(v) && k in v.fields
    ensures Refs(v.fields[k]) <= Refs(v)
  {
  }

  const FreeForm := Schema(Some(ObjectKind), map[], [], true, None)
  const HiddenReference := Obj(map["note" := Obj(map["$ref" := Str("a")])])
  const SelfishNode := Node("a", "t", HiddenReference, [])
  const FreeTools: Tools := map["t" := Tool(FreeForm, None, "read", "")]

  lemma SelfishIsValid(rules: Rules)
    requires forall v: Value, s: Schema :: rules.admits(v, s)
    ensures ValidGraph([SelfishNode], FreeTools, rules)
  {
    var nodes := [SelfishNode];
    assert HiddenReference.fields.Keys == {"note"};
    assert "$ref" !in HiddenReference.fields;
    assert Seen(HiddenReference, FreeForm) == {};
    assert ById(nodes) == map["a" := SelfishNode];
    assert Edges(SelfishNode, FreeTools) == {};
    assert Adjacency(nodes, FreeTools) == map["a" := {}];
    assert Dag.Postorder(Adjacency(nodes, FreeTools), ["a"]);
    Dag.OrderedHasNoCycle(Adjacency(nodes, FreeTools), ["a"]);
    hide Dag.HasCycle, Dag.Postorder, Adjacency;
    assert Fits(HiddenReference, FreeForm, OutputSchemas(nodes, FreeTools), rules);
    assert AllFit(nodes, FreeTools, rules);
  }

  lemma SelfishNeedsItself()
    ensures Dag.HasCycle(FullNeeds([SelfishNode]))
  {
    var inner := HiddenReference.fields["note"];
    assert HiddenReference.fields.Keys == {"note"} && inner.fields.Keys == {"$ref"};
    assert "$ref" !in HiddenReference.fields;
    RefsIn(HiddenReference, "note");
    assert "a" in Refs(inner);
    assert ById([SelfishNode]) == map["a" := SelfishNode];
    assert Dag.IsCycle(FullNeeds([SelfishNode]), ["a", "a"]);
  }

  const DanglingNode := Node("b", "t", HiddenReference, [])

  lemma DanglingIsValid(rules: Rules)
    requires forall v: Value, s: Schema :: rules.admits(v, s)
    ensures ValidGraph([DanglingNode], FreeTools, rules)
  {
    var nodes := [DanglingNode];
    assert HiddenReference.fields.Keys == {"note"};
    assert "$ref" !in HiddenReference.fields;
    assert Seen(HiddenReference, FreeForm) == {};
    assert ById(nodes) == map["b" := DanglingNode];
    assert Edges(DanglingNode, FreeTools) == {};
    assert Adjacency(nodes, FreeTools) == map["b" := {}];
    assert Dag.Postorder(Adjacency(nodes, FreeTools), ["b"]);
    Dag.OrderedHasNoCycle(Adjacency(nodes, FreeTools), ["b"]);
    hide Dag.HasCycle, Dag.Postorder, Adjacency;
    assert Fits(HiddenReference, FreeForm, OutputSchemas(nodes, FreeTools), rules);
    assert AllFit(nodes, FreeTools, rules);
  }

  lemma HiddenReferenceFollowed()
    ensures "a" in Refs(HiddenReference)
  {
    var inner := HiddenReference.fields["note"];
    assert HiddenReference.fields.Keys == {"note"} && inner.fields.Keys == {"$ref"};
    assert "$ref" !in HiddenReference.fields;
    RefsIn(HiddenReference, "note");
    assert "a" in Refs(inner);
  }

  /**
   * Both conditions are needed: a reference under a field no schema describes passes validation, and can make a
   * node need itself or a node that does not exist.
   */
  lemma ValidButUnorderable(rules: Rules)
    requires forall v: Value, s: Schema :: rules.admits(v, s)
    ensures exists nodes, tools :: ValidGraph(nodes, tools, rules) && Dag.HasCycle(FullNeeds(nodes))
    ensures exists nodes, tools, n: Node ::
              ValidGraph(nodes, tools, rules) && n in nodes && !(Refs(n.arguments) <= Ids(nodes))
  {
    hide ValidGraph, Dag.HasCycle, FullNeeds, Refs;
    SelfishIsValid(rules);
    SelfishNeedsItself();
    DanglingIsValid(rules);
    HiddenReferenceFollowed();
    assert Ids([DanglingNode]) == {"b"};
    assert DanglingNode in [DanglingNode] && !(Refs(DanglingNode.arguments) <= Ids([DanglingNode]));
  }

  lemma {:induction false} NamesCount(ids: seq<string>)
    ensures |Dag.Set(ids)| <= |ids| && (Dag.Distinct(ids) ==> |Dag.Set(ids)| == |ids|)
  {
    if ids == [] {
      assert Dag.Set(ids) == {};
    } else {
      var init, last := ids[..|ids| - 1], ids[|ids| - 1];
      NamesCount(init);
      assert Dag.Set(ids) == Dag.Set(init) + {last};
      assert Dag.Distinct(ids) ==> last !in Dag.Set(init);
    }
  }

  lemma IdsAreNames(nodes: seq<Node>)
    ensures Ids(nodes) == Dag.Set(Names(nodes))
  {
    forall n | n in nodes ensures n.id in Dag.Set(Names(nodes)) {
      var i :| 0 <= i < |nodes| && nodes[i] == n;
      assert Names(nodes)[i] == n.id;
    }
  }

  /** Where there is an order, no node lies deeper in the search than there are nodes. */
  lemma RankBounded(nodes: seq<Node>, finish: seq<string>, id: string)
    requires Sorted(FullNeeds(nodes), finish) && id in Ids(nodes) && FullNeeds(nodes).Keys == Ids(nodes)
    ensures Rank(finish, id) < |nodes|
  {
    IdsAreNames(nodes);
    NamesCount(Names(nodes));
    NamesCount(finish);
    var i :| 0 <= i < |finish| && finish[i] == id;
    RankIs(finish, i);
  }

  lemma StartsListed(nodes: seq<Node>)
    ensures Indexes(ById(nodes), FullNeeds(nodes)) && Listed(ById(nodes), FullNeeds(nodes), [], {})
    ensures FullNeeds(nodes).Keys == Ids(nodes)
  {
    hide Needs;
    ByIdOf(nodes);
    NodesAreIndexed(nodes);
  }

  lemma SortedIfOrderable(nodes: seq<Node>) returns (finish: seq<string>)
    ensures NamesExist(nodes) && !Dag.HasCycle(FullNeeds(nodes)) ==> Sorted(FullNeeds(nodes), finish)
  {
    finish := [];
    if NamesExist(nodes) && !Dag.HasCycle(FullNeeds(nodes)) {
      NamesAreClosed(nodes);
      NothingListed(FullNeeds(nodes));
      finish := Dag.AcyclicHasPostorder(FullNeeds(nodes), []);
    }
  }

  /**
   * Whatever is returned is an order of the nodes, and with a frame of the stack for every node one is returned
   * exactly for the graphs that have one.
   */
  method TopologicalOrder(nodes: seq<Node>, frames: nat) returns (ordered: Option<seq<Node>>)
    requires UniqueIds(nodes)
    ensures ordered.Some? ==> OrderOf(nodes, ordered.value)
    ensures ordered.Some? ==> NamesExist(nodes) && !Dag.HasCycle(FullNeeds(nodes))
    ensures |nodes| <= frames && NamesExist(nodes) && !Dag.HasCycle(FullNeeds(nodes)) ==> ordered.Some?
  {
    hide Indexes, Sorted, Apart, Dag.Path, Dag.HasCycle, NamesExist, FullNeeds, Listed, UniqueIds, ById, Ids, OrderOf, Known;
    ghost var needs := FullNeeds(nodes);
    StartsListed(nodes);
    ghost var finish := SortedIfOrderable(nodes);
    var byId := ById(nodes);
    var ordering := new Ordering(byId);
    for i := 0 to |nodes|
      invariant fresh(ordering) && ordering.byId == byId && Listed(byId, needs, ordering.ordered, ordering.visited)
      invariant forall k :: 0 <= k < i ==> nodes[k].id in ordering.visited
    {
      OwnNode(nodes, nodes[i]);
      IdIn(nodes, nodes[i]);
      SingleIsPath(nodes, nodes[i]);
      if Sorted(needs, finish) { RankBounded(nodes, finish, nodes[i].id); }
      var ok := ordering.Visit(nodes[i], frames, needs, [], finish);
      if !ok { return None; }
    }
    ordered := Some(ordering.ordered);
    AllListed(nodes, ordering.ordered, ordering.visited);
    OrderedIsOrderable(nodes, ordering.ordered);
  }

  lemma SingleIsPath(nodes: seq<Node>, n: Node)
    requires n in nodes
    ensures Dag.Path(FullNeeds(nodes), [] + [n.id])
    ensures forall visited :: Apart([], visited)
  {
    ByIdOf(nodes);
    IdIn(nodes, n);
  }

  lemma OrderedIsOrderable(nodes: seq<Node>, ordered: seq<Node>)
    requires UniqueIds(nodes) && OrderOf(nodes, ordered)
    ensures NamesExist(nodes) && !Dag.HasCycle(FullNeeds(nodes))
  {
    hide OrderOf, FullNeeds, Needs, UniqueIds, Dag.HasCycle;
    OrderedHasNoCycle(nodes, ordered);
    forall n | n in nodes ensures Needs(n) <= Ids(nodes) { OrderedNamesExist(nodes, ordered, n); }
  }

  // ---------------------------------------------------------------- references and schemas by position

  /** The object that refers to the output of a node. */
  function Reference(r: string): Value { Obj(map["$ref" := Str(r)]) }

  lemma ReferenceMeans(v: Value, r: string)
    ensures IsReference(v) && Target(v) == r <==> v == Reference(r)
  {
    if IsReference(v) && Target(v) == r {
      assert v.fields == map["$ref" := Str(r)];
    }
  }

  ghost predicate RefersTo(v: Value, path: seq<Part>, r: string) { At(v, path) == Some(Reference(r)) }

  lemma TextRefersToNothing(t: string, path: seq<Part>, r: string)
    ensures !RefersTo(Str(t), path, r)
  {
  }

  lemma InsideReference(v: Value, path: seq<Part>, r: string)
    requires IsReference(v) && RefersTo(v, path, r)
    ensures path == []
  {
    hide RefersTo;
    PartOfReference(v, path, r);
    if path != [] { TextRefersToNothing(Target(v), path[1..], r); }
  }

  lemma PartOfReference(v: Value, path: seq<Part>, r: string)
    requires IsReference(v)
    ensures path != [] && RefersTo(v, path, r) ==> RefersTo(Str(Target(v)), path[1..], r)
  {
  }

  /** `collectReferences` finds exactly the references that stand somewhere in the value. */
  lemma {:induction false} RefsMean(v: Value, r: string)
    ensures r in Refs(v) <==> exists path :: RefersTo(v, path, r)
    decreases v
  {
    if r in Refs(v) { var _ := RefIsSomewhere(v, r); }
    if path :| RefersTo(v, path, r) { RefIsFound(v, path, r); }
  }

  lemma {:induction false} RefIsSomewhere(v: Value, r: string) returns (path: seq<Part>)
    requires r in Refs(v)
    ensures RefersTo(v, path, r)
    decreases v
  {
    path := [];
    if IsReference(v) {
      ReferenceMeans(v, r);
    } else if v.Arr? {
      var i :| 0 <= i < |v.items| && r in Refs(v.items[i]);
      var rest := RefIsSomewhere(v.items[i], r);
      path := [Item(i)] + rest;
      assert path[1..] == rest;
    } else {
      var k :| k in v.fields && r in Refs(v.fields[k]);
      var rest := RefIsSomewhere(v.fields[k], r);
      path := [Field(k)] + rest;
      assert path[1..] == rest;
    }
  }

  lemma {:induction false} RefIsFound(v: Value, path: seq<Part>, r: string)
    requires RefersTo(v, path, r)
    ensures r in Refs(v)
    decreases |path|
  {
    ReferenceMeans(v, r);
    if IsReference(v) {
      InsideReference(v, path, r);
    } else {
      assert path != [];
      RefIsFound(Inside(v, path[0]).value, path[1..], r);
    }
  }

  /** The schema that describes a position, if the schemas on the way there do. */
  function SchemaAt(v: Value, s: Schema, path: seq<Part>): Option<Schema>
    decreases |path|
  {
    if path == [] then Some(s)
    else if IsReference(v) || Inside(v, path[0]).None? then None
    else if path[0].Field? && s.kind == Some(ObjectKind) && path[0].k in s.properties then
      SchemaAt(v.fields[path[0].k], s.properties[path[0].k], path[1..])
    else if path[0].Item? && s.kind == Some(ArrayKind) && s.items.Some? then
      SchemaAt(v.items[path[0].i], s.items.value, path[1..])
    else None
  }

  ghost predicate SeenAt(v: Value, s: Schema, path: seq<Part>, r: string) {
    RefersTo(v, path, r) && SchemaAt(v, s, path).Some?
  }

  /** Validation comes across exactly the references at positions that the schema describes. */
  lemma SeenMean(v: Value, s: Schema, r: string)
    ensures r in Seen(v, s) <==> exists path :: SeenAt(v, s, path, r)
  {
    if r in Seen(v, s) { var _ := SeenIsDescribed(v, s, r); }
    if path :| SeenAt(v, s, path, r) { DescribedIsSeen(v, s, path, r); }
  }

  lemma {:induction false} SeenIsDescribed(v: Value, s: Schema, r: string) returns (path: seq<Part>)
    requires r in Seen(v, s)
    ensures SeenAt(v, s, path, r)
    decreases v
  {
    path := [];
    if IsReference(v) {
      ReferenceMeans(v, r);
    } else if s.kind == Some(ObjectKind) {
      var k :| k in v.fields && k in s.properties && r in Seen(v.fields[k], s.properties[k]);
      var rest := SeenIsDescribed(v.fields[k], s.properties[k], r);
      path := [Field(k)] + rest;
      assert path[1..] == rest;
    } else {
      var i :| 0 <= i < |v.items| && r in Seen(v.items[i], s.items.value);
      var rest := SeenIsDescribed(v.items[i], s.items.value, r);
      path := [Item(i)] + rest;
      assert path[1..] == rest;
    }
  }

  lemma {:induction false} DescribedIsSeen(v: Value, s: Schema, path: seq<Part>, r: string)
    requires SeenAt(v, s, path, r)
    ensures r in Seen(v, s)
    decreases |path|
  {
    ReferenceMeans(v, r);
    if IsReference(v) {
      InsideReference(v, path, r);
    } else if path[0].Field? {
      DescribedIsSeen(v.fields[path[0].k], s.properties[path[0].k], path[1..], r);
    } else {
      DescribedIsSeen(v.items[path[0].i], s.items.value, path[1..], r);
    }
  }

  /** What a value must be where a schema describes it, its parts aside. */
  ghost predicate FitsHere(v: Value, s: Schema, outputs: map<string, Option<Schema>>, rules: Rules) {
    if IsReference(v) then
      Target(v) in outputs && outputs[Target(v)].Some? && rules.fits(outputs[Target(v)].value, s)
    else
      && rules.admits(v, s)
      && (s.kind.Some? ==>
            match s.kind.value
            case ObjectKind => v.Obj? case ArrayKind => v.Arr? case StringKind => v.Str?
            case NumberKind => v.Num? case BooleanKind => v.Bool? case NullKind => v.Null?)
      && (s.kind == Some(ObjectKind) ==>
            && (forall name :: name in s.required ==> name in v.fields)
            && (!s.additional ==> v.fields.Keys <= s.properties.Keys))
  }

  ghost predicate FitsAt(v: Value, s: Schema, path: seq<Part>, outputs: map<string, Option<Schema>>, rules: Rules) {
    At(v, path).Some? && SchemaAt(v, s, path).Some? ==> FitsHere(At(v, path).value, SchemaAt(v, s, path).value, outputs, rules)
  }

  /** A value passes exactly when it fits at every position that a schema describes. */
  lemma FitsMeans(v: Value, s: Schema, outputs: map<string, Option<Schema>>, rules: Rules)
    ensures Fits(v, s, outputs, rules) <==> forall path :: FitsAt(v, s, path, outputs, rules)
  {
    if Fits(v, s, outputs, rules) {
      forall path ensures FitsAt(v, s, path, outputs, rules) { FitsEverywhere(v, s, path, outputs, rules); }
    } else {
      var path := MisfitIsSomewhere(v, s, outputs, rules);
      assert !FitsAt(v, s, path, outputs, rules);
    }
  }

  lemma {:induction false} FitsEverywhere(v: Value, s: Schema, path: seq<Part>, outputs: map<string, Option<Schema>>, rules: Rules)
    requires Fits(v, s, outputs, rules)
    ensures FitsAt(v, s, path, outputs, rules)
    decreases |path|
  {
    if path != [] && At(v, path).Some? && SchemaAt(v, s, path).Some? {
      if path[0].Field? {
        FitsEverywhere(v.fields[path[0].k], s.properties[path[0].k], path[1..], outputs, rules);
      } else {
        FitsEverywhere(v.items[path[0].i], s.items.value, path[1..], outputs, rules);
      }
    }
  }

  lemma {:induction false} MisfitIsSomewhere(v: Value, s: Schema, outputs: map<string, Option<Schema>>, rules: Rules)
    returns (path: seq<Part>)
    requires !Fits(v, s, outputs, rules)
    ensures !FitsAt(v, s, path, outputs, rules)
    decreases v
  {
    path := [];
    if !FitsHere(v, s, outputs, rules) {
      assert !FitsAt(v, s, [], outputs, rules);
    } else if s.kind == Some(ObjectKind) {
      var k :| k in v.fields && k in s.properties && !Fits(v.fields[k], s.properties[k], outputs, rules);
      var rest := MisfitIsSomewhere(v.fields[k], s.properties[k], outputs, rules);
      path := [Field(k)] + rest;
      assert path[1..] == rest;
    } else {
      var i :| 0 <= i < |v.items| && !Fits(v.items[i], s.items.value, outputs, rules);
      var rest := MisfitIsSomewhere(v.items[i], s.items.value, outputs, rules);
      path := [Item(i)] + rest;
      assert path[1..] == rest;
    }
  }

  /** The edges of the two searches, from the node itself. */
  lemma EdgesMean(n: Node, tools: Tools, d: string)
    ensures d in Needs(n) <==> d in n.dependsOn || exists path :: RefersTo(n.arguments, path, d)
    ensures d in Edges(n, tools) <==>
              d in n.dependsOn || (n.tool in tools && exists path :: SeenAt(n.arguments, tools[n.tool].input, path, d))
  {
    RefsMean(n.arguments, d);
    if n.tool in tools { SeenMean(n.arguments, tools[n.tool].input, d); }
    hide Refs, Seen;
  }

  /** In an order of the nodes every one stands once, behind all it depends on and all it refers to. */
  lemma OrderMeans(nodes: seq<Node>, ordered: seq<Node>, i: nat, d: string)
    requires UniqueIds(nodes) && OrderOf(nodes, ordered) && i < |ordered|
    requires d in ordered[i].dependsOn || exists path :: RefersTo(ordered[i].arguments, path, d)
    ensures exists j :: 0 <= j < i && ordered[j].id == d
  {
    EdgesMean(ordered[i], map[], d);
    OwnNode(nodes, ordered[i]);
    hide ById, Needs, UniqueIds;
    assert Names(ordered)[i] == ordered[i].id;
    assert d in FullNeeds(nodes)[Names(ordered)[i]];
    assert d in Names(ordered)[..i];
    var j :| 0 <= j < i && Names(ordered)[j] == d;
  }

  lemma OrderIsPermutation(nodes: seq<Node>, ordered: seq<Node>)
    requires UniqueIds(nodes) && OrderOf(nodes, ordered)
    ensures forall n :: n in nodes <==> n in ordered
    ensures forall i, j :: 0 <= i < j < |ordered| ==> ordered[i].id != ordered[j].id
  {
    forall n ensures n in nodes <==> n in ordered {
      if n in nodes {
        IdIn(nodes, n);
        var i := PositionOf(ordered, n.id);
        assert ordered[i] in nodes;
        OwnNode(nodes, n);
        OwnNode(nodes, ordered[i]);
      }
    }
    forall i, j | 0 <= i < j < |ordered| ensures ordered[i].id != ordered[j].id {
      assert Names(ordered)[i] != Names(ordered)[j];
    }
  }
}
