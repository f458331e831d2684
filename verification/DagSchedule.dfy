/**
 * The typed call graph of the compilers: validation with its cycle search, the topological order, and the
 * frontiers that may run in parallel.  Node ids and their dependencies are kept; of types, literals and tool
 * schemas only whether a node passes.
 */
module DagSchedule {
  import opened Common

  /** `sources`: the nodes its arguments are bound to. `sound`: no complaint about its types or annotations. */
  datatype Node = Node(id: string, sources: seq<string>, repairOf: Option<string>, parallelizable: bool, sound: bool)

  datatype Issue = EmptyId | DuplicateNode | DanglingSource | DanglingRepair | Unsound | Cycle

  type Deps = map<string, set<string>>

  function Ids(nodes: seq<Node>): set<string> {
    set n | n in nodes && n.id != "" :: n.id
  }

  function Set(s: seq<string>): set<string> { set x | x in s }

  function Needs(n: Node): set<string> {
    Set(n.sources) + if n.repairOf.Some? then {n.repairOf.value} else {}
  }

  /** What validation takes the dependencies to be: the sources and repaired nodes that exist. */
  function Known(nodes: seq<Node>): Deps {
    map id | id in Ids(nodes) :: set n, d | n in nodes && n.id == id && d in Needs(n) && d in Ids(nodes) :: d
  }

  ghost predicate Closed(deps: Deps) {
    forall id :: id in deps ==> deps[id] <= deps.Keys
  }

  // ---------------------------------------------------------------- cycles

  /** Each node depends on the next one. */
  ghost predicate Path(deps: Deps, p: seq<string>) {
    && (forall i :: 0 <= i < |p| ==> p[i] in deps)
    && (forall i :: 0 <= i < |p| - 1 ==> p[i + 1] in deps[p[i]])
  }

  ghost predicate IsCycle(deps: Deps, p: seq<string>) {
    |p| >= 2 && p[0] == p[|p| - 1] && Path(deps, p)
  }

  ghost predicate HasCycle(deps: Deps) {
    exists p :: IsCycle(deps, p)
  }

  /** Every node once, after all it depends on. */
  ghost predicate Postorder(deps: Deps, order: seq<string>) {
    && (forall i :: 0 <= i < |order| ==> order[i] in deps)
    && (forall i, j :: 0 <= i < j < |order| ==> order[i] != order[j])
    && (forall i, d :: 0 <= i < |order| && d in deps[order[i]] ==> d in order[..i])
  }

  /** A path inside a postorder runs strictly backwards. */
  lemma PathDescends(deps: Deps, order: seq<string>, p: seq<string>, i: nat, k: nat) returns (j: nat)
    requires Postorder(deps, order) && Path(deps, p) && 0 < |p| && i < |order| && order[i] == p[0] && k < |p|
    ensures j < |order| && order[j] == p[k] && j <= i && (k > 0 ==> j < i)
  {
    if k == 0 {
      j := i;
    } else {
      j := PathDescends(deps, order, p, i, k - 1);
      assert p[k - 1 + 1] in deps[p[k - 1]];
      assert p[k] in order[..j];
      j :| 0 <= j < |order| && j < i && order[j] == p[k];
    }
  }

  lemma OrderedHasNoCycle(deps: Deps, order: seq<string>)
    requires Postorder(deps, order) && forall id :: id in deps ==> id in order
    ensures !HasCycle(deps)
  {
    forall p ensures !IsCycle(deps, p) {
      if IsCycle(deps, p) {
        assert p[0] in deps;
        var i :| 0 <= i < |order| && order[i] == p[0];
        var _ := PathDescends(deps, order, p, i, |p| - 1);
        assert false;
      }
    }
  }

  lemma ClosingCycle(deps: Deps, stack: seq<string>, id: string)
    requires Path(deps, stack + [id]) && id in stack
    ensures HasCycle(deps)
  {
    var i :| 0 <= i < |stack| && stack[i] == id;
    var p := (stack + [id])[i..];
    assert forall k :: 0 <= k < |p| ==> p[k] == (stack + [id])[i + k];
    forall k | 0 <= k < |p| - 1 ensures p[k + 1] in deps[p[k]] {
      assert (stack + [id])[i + k + 1] in deps[(stack + [id])[i + k]];
    }
    assert IsCycle(deps, p);
  }

  /** If everybody left depends on somebody left, following the dependencies runs into a cycle. */
  lemma {:induction false} NobodyReadyMeansCycle(deps: Deps, left: set<string>, stack: seq<string>)
    requires left <= deps.Keys && (forall id :: id in left ==> deps[id] * left != {})
    requires stack != [] && Path(deps, stack) && Set(stack) <= left
    ensures HasCycle(deps)
    decreases left - Set(stack)
  {
    var last := stack[|stack| - 1];
    assert last in Set(stack);
    var d :| d in deps[last] * left;
    assert Path(deps, stack + [d]);
    if d in stack {
      ClosingCycle(deps, stack, d);
    } else {
      assert Set(stack + [d]) == Set(stack) + {d};
      assert d in left - Set(stack);
      NobodyReadyMeansCycle(deps, left, stack + [d]);
    }
  }

  /** A closed relation without a cycle can be listed: every node after all it depends on. */
  lemma {:induction false} AcyclicHasPostorder(deps: Deps, listed: seq<string>) returns (order: seq<string>)
    requires Closed(deps) && !HasCycle(deps) && Postorder(deps, listed)
    ensures Postorder(deps, order) && Set(order) == deps.Keys
    decreases deps.Keys - Set(listed)
  {
    var left := deps.Keys - Set(listed);
    if left == {} {
      order := listed;
      assert forall x :: x in Set(listed) ==> x in listed && x in deps;
      assert forall x :: x in deps.Keys ==> x !in left;
    } else {
      var id := SomebodyReady(deps, left);
      forall d | d in deps[id] ensures d in Set(listed) { assert d in deps.Keys && d !in deps[id] * left; }
      FinishNode(deps, listed, id);
      assert Set(listed + [id]) == Set(listed) + {id};
      order := AcyclicHasPostorder(deps, listed + [id]);
    }
  }

  lemma SomebodyReady(deps: Deps, left: set<string>) returns (id: string)
    requires Closed(deps) && !HasCycle(deps) && left <= deps.Keys && left != {}
    ensures id in left && deps[id] * left == {}
  {
    if forall id :: id in left ==> deps[id] * left != {} {
      var first :| first in left;
      assert Set([first]) == {first};
      NobodyReadyMeansCycle(deps, left, [first]);
    }
    id :| id in left && deps[id] * left == {};
  }

  lemma FinishNode(deps: Deps, order: seq<string>, id: string)
    requires Postorder(deps, order) && id in deps && id !in order && deps[id] <= Set(order)
    ensures Postorder(deps, order + [id])
  {
    var t := order + [id];
    assert t[..|order|] == order;
    forall i, d | 0 <= i < |t| && d in deps[t[i]] ensures d in t[..i] {
      if i < |order| { assert t[..i] == order[..i]; } else { assert d in Set(order); }
    }
  }

  /** The depth-first search of `validate`, with its two sets. */
  class CycleSearch {
    const deps: Deps
    var visiting: set<string>
    var visited: set<string>
    /** The order in which nodes were finished. */
    ghost var order: seq<string>

    ghost predicate Valid()
      reads this
    {
      Closed(deps) && visiting !! visited && visiting <= deps.Keys && Set(order) == visited && Postorder(deps, order)
    }

    constructor (deps: Deps)
      requires Closed(deps)
      ensures Valid() && this.deps == deps && visiting == {} && visited == {}
    {
      this.deps := deps;
      visiting, visited, order := {}, {}, [];
    }

    /** `stack`: the nodes being visited, each depending on the next, the last one on `id`. */
    method Visit(id: string, ghost stack: seq<string>) returns (cyclic: bool)
      requires Valid() && id in deps && Set(stack) == visiting && Path(deps, stack + [id])
      modifies this
      ensures visiting == old(visiting) && old(visited) <= visited
      ensures cyclic ==> HasCycle(deps)
      ensures !cyclic ==> Valid() && id in visited
      decreases deps.Keys - visiting
    {
      if id in visiting {
        ClosingCycle(deps, stack, id);
        return true;
      }
      if id in visited { return false; }
      visiting := visiting + {id};
      cyclic := false;
      var rest := deps[id];
      ghost var path := stack + [id];
      while rest != {} && !cyclic
        invariant visiting == old(visiting) + {id} && old(visited) <= visited && rest <= deps[id]
        invariant cyclic ==> HasCycle(deps)
        invariant !cyclic ==> Valid() && deps[id] - rest <= visited
        decreases |rest|, !cyclic
      {
        var d :| d in rest;
        rest := rest - {d};
        assert Path(deps, path + [d]);
        assert Set(path) == visiting;
        cyclic := Visit(d, path);
      }
      visiting := visiting - {id};
      visited := visited + {id};
      if !cyclic {
        assert rest == {};
        FinishNode(deps, order, id);
        order := order + [id];
      }
    }

    /** The search from every node in turn, which stops at the first cycle. */
    method Search() returns (cyclic: bool)
      requires Valid() && visiting == {} && visited == {}
      modifies this
      ensures cyclic <==> HasCycle(deps)
      ensures !cyclic ==> Postorder(deps, order) && Set(order) == deps.Keys
    {
      var rest := deps.Keys;
      cyclic := false;
      while rest != {} && !cyclic
        invariant visiting == {} && rest <= deps.Keys
        invariant cyclic ==> HasCycle(deps)
        invariant !cyclic ==> Valid() && deps.Keys - rest <= visited
        decreases |rest|, !cyclic
      {
        var id :| id in rest;
        rest := rest - {id};
        cyclic := Visit(id, []);
      }
      if !cyclic {
        assert rest == {};
        assert forall id :: id in deps ==> id in Set(order);
        OrderedHasNoCycle(deps, order);
      }
    }
  }

  // ---------------------------------------------------------------- validation

  ghost predicate UniqueIds(nodes: seq<Node>) {
    forall i, j :: 0 <= i < j < |nodes| ==> nodes[i].id != nodes[j].id
  }

  /** The checks besides the cycle search. */
  ghost predicate WellFormed(nodes: seq<Node>) {
    && (forall i :: 0 <= i < |nodes| ==> nodes[i].id != "" && nodes[i].sound)
    && UniqueIds(nodes)
    && (forall i :: 0 <= i < |nodes| ==> Needs(nodes[i]) <= Ids(nodes))
  }

  /** The dependencies the first `n` nodes contribute. */
  ghost function Partial(nodes: seq<Node>, n: nat, id: string): set<string>
    requires n <= |nodes|
  {
    set m, d | m in nodes[..n] && m.id == id && d in Needs(m) && d in Ids(nodes) :: d
  }

  lemma KnownClosed(nodes: seq<Node>)
    ensures Closed(Known(nodes))
  {
  }

  lemma PartialStep(nodes: seq<Node>, n: nat, id: string)
    requires n < |nodes|
    ensures Partial(nodes, n + 1, id)
            == Partial(nodes, n, id) + if nodes[n].id == id then Needs(nodes[n]) * Ids(nodes) else {}
  {
    assert nodes[..n + 1] == nodes[..n] + [nodes[n]];
  }

  lemma PartialEnds(nodes: seq<Node>)
    ensures forall id :: Partial(nodes, 0, id) == {}
    ensures Known(nodes).Keys == Ids(nodes)
    ensures forall id :: id in Ids(nodes) ==> Known(nodes)[id] == Partial(nodes, |nodes|, id)
  {
    assert nodes[..|nodes|] == nodes;
  }

  /** The first pass: the ids, and whether every node has one of its own and is otherwise sound. */
  method CollectIds(nodes: seq<Node>) returns (ids: set<string>, issues: seq<Issue>)
    ensures ids == Ids(nodes) && Cycle !in issues
    ensures issues == [] <==>
            && (forall i :: 0 <= i < |nodes| ==> nodes[i].id != "" && nodes[i].sound)
            && UniqueIds(nodes)
  {
    ids, issues := {}, [];
    for i := 0 to |nodes|
      invariant ids == Ids(nodes[..i]) && Cycle !in issues
      invariant issues == [] <==>
                && (forall k :: 0 <= k < i ==> nodes[k].id != "" && nodes[k].sound)
                && (forall j, k :: 0 <= j < k < i ==> nodes[j].id != nodes[k].id)
    {
      assert nodes[..i + 1] == nodes[..i] + [nodes[i]];
      var n := nodes[i];
      if n.id == "" {
        issues := issues + [EmptyId];
      } else if n.id in ids {
        assert exists k :: 0 <= k < i && nodes[k].id == n.id;
        issues := issues + [DuplicateNode];
      } else {
        ids := ids + {n.id};
      }
      if !n.sound { issues := issues + [Unsound]; }
    }
    assert nodes[..|nodes|] == nodes;
  }

  /** The sources of one node that exist, and whether any does not. */
  method KnownSources(n: Node, ids: set<string>) returns (known: set<string>, issues: seq<Issue>)
    ensures known == Needs(n) * ids && Cycle !in issues
    ensures issues == [] <==> Needs(n) <= ids
  {
    known, issues := {}, [];
    for i := 0 to |n.sources|
      invariant known == Set(n.sources[..i]) * ids && Cycle !in issues
      invariant issues == [] <==> Set(n.sources[..i]) <= ids
    {
      assert n.sources[..i + 1] == n.sources[..i] + [n.sources[i]];
      assert Set(n.sources[..i + 1]) == Set(n.sources[..i]) + {n.sources[i]};
      if n.sources[i] in ids { known := known + {n.sources[i]}; } else { issues := issues + [DanglingSource]; }
    }
    assert n.sources[..|n.sources|] == n.sources;
    if n.repairOf.Some? {
      if n.repairOf.value in ids { known := known + {n.repairOf.value}; } else { issues := issues + [DanglingRepair]; }
    }
  }

  /** The second pass: who depends on whom. */
  method CollectDependencies(nodes: seq<Node>, ids: set<string>) returns (deps: Deps, issues: seq<Issue>)
    requires ids == Ids(nodes)
    ensures deps == Known(nodes) && Cycle !in issues
    ensures issues == [] <==> forall i :: 0 <= i < |nodes| ==> Needs(nodes[i]) <= Ids(nodes)
  {
    hide Needs, Known, Partial, Ids;
    PartialEnds(nodes);
    deps, issues := map id | id in ids :: {}, [];
    for i := 0 to |nodes|
      invariant deps.Keys == ids && Cycle !in issues
      invariant forall id :: id in ids ==> deps[id] == Partial(nodes, i, id)
      invariant issues == [] <==> forall k :: 0 <= k < i ==> Needs(nodes[k]) <= Ids(nodes)
    {
      var known, found := KnownSources(nodes[i], ids);
      forall id | id in ids ensures Partial(nodes, i + 1, id)
          == Partial(nodes, i, id) + if nodes[i].id == id then known else {}
      {
        PartialStep(nodes, i, id);
      }
      issues := issues + found;
      if nodes[i].id in ids { deps := deps[nodes[i].id := deps[nodes[i].id] + known]; }
    }
  }

  /** A graph is reported to have a cycle exactly when it has one, and to be faultless exactly when it is. */
  method Validate(nodes: seq<Node>) returns (issues: seq<Issue>, ghost order: seq<string>)
    ensures Cycle in issues <==> HasCycle(Known(nodes))
    ensures issues == [] <==> WellFormed(nodes) && !HasCycle(Known(nodes))
    ensures issues == [] ==> Postorder(Known(nodes), order) && Set(order) == Ids(nodes)
  {
    var ids, first := CollectIds(nodes);
    var deps, second := CollectDependencies(nodes, ids);
    issues := first + second;
    KnownClosed(nodes);
    var search := new CycleSearch(deps);
    var cyclic := search.Search();
    order := search.order;
    if cyclic { issues := issues + [Cycle]; }
  }

  // ---------------------------------------------------------------- schedules

  predicate IsReady(n: Node, deps: Deps, left: set<string>) {
    n.id in left && n.id in deps && deps[n.id] !! left
  }

  /** Nodes that are left and depend on nothing that is left, in the order of the graph. */
  function Ready(nodes: seq<Node>, deps: Deps, left: set<string>): seq<Node> {
    if nodes == [] then []
    else (if IsReady(nodes[0], deps, left) then [nodes[0]] else []) + Ready(nodes[1..], deps, left)
  }

  lemma {:induction false} ReadyExactly(nodes: seq<Node>, deps: Deps, left: set<string>, n: Node)
    ensures n in Ready(nodes, deps, left) <==> n in nodes && IsReady(n, deps, left)
  {
    if nodes != [] {
      ReadyExactly(nodes[1..], deps, left, n);
      assert nodes == [nodes[0]] + nodes[1..];
      hide IsReady;
    }
  }

  function Names(nodes: seq<Node>): (names: seq<string>)
    ensures |names| == |nodes| && forall i :: 0 <= i < |nodes| ==> names[i] == nodes[i].id
  {
    seq(|nodes|, i requires 0 <= i < |nodes| => nodes[i].id)
  }

  function FirstSerial(nodes: seq<Node>): (i: nat)
    ensures i <= |nodes| && (i < |nodes| ==> !nodes[i].parallelizable)
    ensures forall k :: 0 <= k < i ==> nodes[k].parallelizable
  {
    if nodes == [] || !nodes[0].parallelizable then 0 else 1 + FirstSerial(nodes[1..])
  }

  /** What runs next: the first serial node that is ready, on its own, or else everything that is ready. */
  function Front(ready: seq<Node>): seq<string> {
    var i := FirstSerial(ready);
    if i < |ready| then [ready[i].id] else Names(ready)
  }

  function Round(ready: seq<Node>, serially: bool): seq<string> {
    if serially then Front(ready) else Names(ready)
  }

  /** The rounds of `topological_order`, or those of `parallel_frontiers`. */
  function Rounds(nodes: seq<Node>, deps: Deps, left: set<string>, serially: bool): seq<seq<string>>
    decreases |left|
  {
    var ready := Ready(nodes, deps, left);
    if ready == [] then []
    else
      RoundShrinks(nodes, deps, left, serially);
      [Round(ready, serially)] + Rounds(nodes, deps, left - Set(Round(ready, serially)), serially)
  }

  lemma RoundShrinks(nodes: seq<Node>, deps: Deps, left: set<string>, serially: bool)
    requires Ready(nodes, deps, left) != []
    ensures
      var round := Round(Ready(nodes, deps, left), serially);
      round != [] && Set(round) <= left && |left - Set(round)| < |left|
  {
    var ready := Ready(nodes, deps, left);
    forall n | n in ready ensures n.id in left { ReadyExactly(nodes, deps, left, n); }
    var round := Round(ready, serially);
    assert round[0] in Set(round);
    assert left - Set(round) < left;
    SubsetCard(left - Set(round), left - {round[0]});
  }

  function Concat(rounds: seq<seq<string>>): seq<string> {
    if rounds == [] then [] else rounds[0] + Concat(rounds[1..])
  }

  ghost predicate Distinct(s: seq<string>) {
    forall i, j :: 0 <= i < j < |s| ==> s[i] != s[j]
  }

  /** The rounds use up what is left, and nothing runs before something it depends on has run. */
  ghost predicate Schedules(deps: Deps, left: set<string>, rounds: seq<seq<string>>)
    decreases |rounds|
  {
    if rounds == [] then left == {}
    else
      && rounds[0] != [] && Distinct(rounds[0]) && Set(rounds[0]) <= left
      && (forall id :: id in rounds[0] ==> id in deps && deps[id] !! left)
      && Schedules(deps, left - Set(rounds[0]), rounds[1..])
  }

  lemma {:induction false} ReadyDistinct(nodes: seq<Node>, deps: Deps, left: set<string>)
    requires UniqueIds(nodes)
    ensures Distinct(Names(Ready(nodes, deps, left)))
  {
    if nodes != [] {
      ReadyDistinct(nodes[1..], deps, left);
      var rest := Ready(nodes[1..], deps, left);
      forall n | n in rest ensures n.id != nodes[0].id { ReadyExactly(nodes[1..], deps, left, n); }
      var names := Names(rest);
      assert forall k :: 0 <= k < |names| ==> rest[k] in rest && names[k] == rest[k].id;
      assert Distinct(names);
    }
  }

  /** In an acyclic graph somebody who is left does not wait for anybody who is left. */
  lemma SomebodyIsReady(nodes: seq<Node>, deps: Deps, left: set<string>, order: seq<string>)
    requires Postorder(deps, order) && left != {} && left <= Set(order) && Set(order) <= Ids(nodes)
    ensures Ready(nodes, deps, left) != []
  {
    var id :| id in left;
    var i := FirstLeft(order, left);
    assert forall d :: d in deps[order[i]] ==> d in order[..i];
    assert deps[order[i]] !! left;
    var n :| n in nodes && n.id == order[i];
    ReadyExactly(nodes, deps, left, n);
  }

  lemma FirstLeft(order: seq<string>, left: set<string>) returns (i: nat)
    requires left != {} && left <= Set(order)
    ensures i < |order| && order[i] in left && forall d :: d in order[..i] ==> d !in left
  {
    var id :| id in left;
    assert id in order;
    i := 0;
    while order[i] !in left
      invariant i < |order| && forall k :: 0 <= k < i ==> order[k] !in left
      invariant exists k :: i <= k < |order| && order[k] == id
      decreases |order| - i
    {
      i := i + 1;
    }
  }

  lemma RoundFits(nodes: seq<Node>, deps: Deps, left: set<string>, serially: bool)
    requires UniqueIds(nodes)
    ensures
      var round := Round(Ready(nodes, deps, left), serially);
      Distinct(round) && forall id :: id in round ==> id in deps && deps[id] !! left
  {
    var ready := Ready(nodes, deps, left);
    ReadyDistinct(nodes, deps, left);
    forall n | n in ready ensures n.id in deps && deps[n.id] !! left { ReadyExactly(nodes, deps, left, n); }
  }

  lemma {:induction false} RoundsSchedule(nodes: seq<Node>, deps: Deps, left: set<string>, serially: bool, order: seq<string>)
    requires UniqueIds(nodes)
    requires Postorder(deps, order) && left <= Set(order) && Set(order) <= Ids(nodes)
    ensures Schedules(deps, left, Rounds(nodes, deps, left, serially))
    decreases |left|
  {
    var ready := Ready(nodes, deps, left);
    hide Postorder, Round, Ready, Ids;
    if left == {} {
      forall n ensures n !in ready { ReadyExactly(nodes, deps, left, n); }
      assert |ready| > 0 ==> ready[0] in ready;
    } else {
      SomebodyIsReady(nodes, deps, left, order);
      RoundShrinks(nodes, deps, left, serially);
      RoundFits(nodes, deps, left, serially);
      RoundsSchedule(nodes, deps, left - Set(Round(ready, serially)), serially, order);
      RoundsUnfold(nodes, deps, left, serially);
    }
  }

  lemma RoundsUnfold(nodes: seq<Node>, deps: Deps, left: set<string>, serially: bool)
    requires Ready(nodes, deps, left) != []
    ensures
      var rounds := Rounds(nodes, deps, left, serially);
      var round := Round(Ready(nodes, deps, left), serially);
      rounds != [] && rounds[0] == round && rounds[1..] == Rounds(nodes, deps, left - Set(round), serially)
  {
  }

  /** A schedule, read round by round, is a topological order of what it schedules. */
  lemma {:induction false} ScheduleIsOrder(deps: Deps, left: set<string>, rounds: seq<seq<string>>)
    requires Schedules(deps, left, rounds)
    ensures Set(Concat(rounds)) == left && Distinct(Concat(rounds))
    ensures
      var all := Concat(rounds);
      forall i, d :: 0 <= i < |all| && d in deps && all[i] in deps && d in deps[all[i]] && d in left ==> d in all[..i]
    decreases |rounds|
  {
    if rounds != [] {
      var head, tail, rest := rounds[0], Concat(rounds[1..]), left - Set(rounds[0]);
      ScheduleIsOrder(deps, rest, rounds[1..]);
      var all := head + tail;
      assert Set(all) == Set(head) + Set(tail);
      forall i, j | 0 <= i < j < |all| ensures all[i] != all[j] {
        if i < |head| <= j {
          assert all[i] in Set(head) && all[j] in Set(tail);
        }
      }
      assert forall k :: 0 <= k < |head| ==> head[k] in head && all[k] == head[k];
      forall i, d | 0 <= i < |all| && d in deps && all[i] in deps && d in deps[all[i]] && d in left
        ensures d in all[..i]
      {
        if i >= |head| {
          assert all[..i] == head + tail[..i - |head|];
          assert d in Set(head) || d in tail[..i - |head|];
        }
      }
    }
  }

  /** A node that may not run in parallel is alone in its round. */
  lemma {:induction false} SerialRunsAlone(nodes: seq<Node>, deps: Deps, left: set<string>, r: nat, n: Node)
    requires UniqueIds(nodes)
    requires n in nodes && !n.parallelizable
    requires r < |Rounds(nodes, deps, left, true)| && n.id in Rounds(nodes, deps, left, true)[r]
    ensures Rounds(nodes, deps, left, true)[r] == [n.id]
    decreases r
  {
    var ready := Ready(nodes, deps, left);
    RoundsUnfold(nodes, deps, left, true);
    if r == 0 {
      FrontIsolates(nodes, deps, left, n);
    } else {
      SerialRunsAlone(nodes, deps, left - Set(Round(ready, true)), r - 1, n);
    }
  }

  lemma SameNode(nodes: seq<Node>, m: Node, n: Node)
    requires UniqueIds(nodes) && m in nodes && n in nodes && m.id == n.id
    ensures m == n
  {
  }

  lemma FrontIsolates(nodes: seq<Node>, deps: Deps, left: set<string>, n: Node)
    requires UniqueIds(nodes)
    requires n in nodes && !n.parallelizable && n.id in Front(Ready(nodes, deps, left))
    ensures Front(Ready(nodes, deps, left)) == [n.id]
  {
    var ready := Ready(nodes, deps, left);
    var i := FirstSerial(ready);
    hide UniqueIds, IsReady;
    if i == |ready| {
      var k :| 0 <= k < |ready| && Names(ready)[k] == n.id;
      ReadyExactly(nodes, deps, left, ready[k]);
      SameNode(nodes, ready[k], n);
      assert false;
    }
  }

  lemma {:induction false} NoSerialNode(nodes: seq<Node>)
    requires forall n :: n in nodes ==> n.parallelizable
    ensures FirstSerial(nodes) == |nodes|
  {
    if nodes != [] {
      assert nodes[0] in nodes && forall n :: n in nodes[1..] ==> n in nodes;
      NoSerialNode(nodes[1..]);
    }
  }

  /** Without serial nodes the frontiers are the rounds of the topological order. */
  lemma {:induction false} FrontiersAreRounds(nodes: seq<Node>, deps: Deps, left: set<string>)
    requires forall n :: n in nodes ==> n.parallelizable
    ensures Rounds(nodes, deps, left, true) == Rounds(nodes, deps, left, false)
    decreases |left|
  {
    var ready := Ready(nodes, deps, left);
    if ready != [] {
      forall n | n in ready ensures n.parallelizable { ReadyExactly(nodes, deps, left, n); }
      NoSerialNode(ready);
      RoundShrinks(nodes, deps, left, true);
      assert Round(ready, true) == Round(ready, false);
      FrontiersAreRounds(nodes, deps, left - Set(Round(ready, true)));
      RoundsUnfold(nodes, deps, left, true);
      RoundsUnfold(nodes, deps, left, false);
      hide Rounds, Ready, Round;
    }
  }

  lemma KnownIsNeeds(nodes: seq<Node>, i: nat)
    requires WellFormed(nodes) && i < |nodes|
    ensures nodes[i].id in Known(nodes) && Known(nodes)[nodes[i].id] == Needs(nodes[i])
  {
    assert nodes[i] in nodes;
    assert forall n :: n in nodes && n.id == nodes[i].id ==> n == nodes[i];
    forall d | d in Needs(nodes[i]) ensures d in Known(nodes)[nodes[i].id] {
      assert d in Ids(nodes);
    }
  }

  lemma NeedsAreKnown(nodes: seq<Node>, deps: Deps)
    requires WellFormed(nodes) && deps.Keys == Ids(nodes)
    requires forall k :: 0 <= k < |nodes| ==> nodes[k].id in deps && deps[nodes[k].id] == Needs(nodes[k])
    ensures deps == Known(nodes)
  {
    hide Needs;
    forall id | id in deps ensures id in Known(nodes) && deps[id] == Known(nodes)[id] {
      var i :| 0 <= i < |nodes| && nodes[i].id == id;
      KnownIsNeeds(nodes, i);
      hide Known;
    }
  }

  lemma OwnId(nodes: seq<Node>, i: nat)
    requires WellFormed(nodes) && i < |nodes|
    ensures nodes[i].id in Ids(nodes)
    ensures forall k :: 0 <= k < |nodes| && k != i ==> nodes[k].id != nodes[i].id
  {
    assert nodes[i] in nodes;
  }

  /** `_dependencies`, for a graph that has been validated. */
  method Dependencies(nodes: seq<Node>) returns (deps: Deps)
    requires WellFormed(nodes)
    ensures deps == Known(nodes)
  {
    hide WellFormed, Needs, Known, Ids;
    var all := Ids(nodes);
    deps := map id | id in all :: {};
    for i := 0 to |nodes|
      invariant deps.Keys == all
      invariant forall k :: 0 <= k < i ==> nodes[k].id in deps && deps[nodes[k].id] == Needs(nodes[k])
      invariant forall k :: i <= k < |nodes| ==> nodes[k].id in deps ==> deps[nodes[k].id] == {}
    {
      OwnId(nodes, i);
      deps := deps[nodes[i].id := deps[nodes[i].id] + Needs(nodes[i])];
    }
    NeedsAreKnown(nodes, deps);
  }

  /** Every node once, each after everything it depends on. */
  ghost predicate TopologicalOrderOf(nodes: seq<Node>, order: seq<string>) {
    && Set(order) == Ids(nodes) && Distinct(order)
    && forall i, d :: 0 <= i < |order| && order[i] in Known(nodes) && d in Known(nodes)[order[i]] ==> d in order[..i]
  }

  lemma ConcatIsTopological(nodes: seq<Node>, serially: bool, order: seq<string>)
    requires WellFormed(nodes) && Postorder(Known(nodes), order) && Set(order) == Ids(nodes)
    ensures Schedules(Known(nodes), Ids(nodes), Rounds(nodes, Known(nodes), Ids(nodes), serially))
    ensures TopologicalOrderOf(nodes, Concat(Rounds(nodes, Known(nodes), Ids(nodes), serially)))
  {
    RoundsSchedule(nodes, Known(nodes), Ids(nodes), serially, order);
    ScheduleIsOrder(Known(nodes), Ids(nodes), Rounds(nodes, Known(nodes), Ids(nodes), serially));
    KnownClosed(nodes);
    var all := Concat(Rounds(nodes, Known(nodes), Ids(nodes), serially));
    hide Rounds, Schedules, Concat, Postorder;
    forall i, d | 0 <= i < |all| && all[i] in Known(nodes) && d in Known(nodes)[all[i]] ensures d in all[..i] {
      assert d in Known(nodes).Keys;
    }
  }

  lemma NothingLeft(nodes: seq<Node>, deps: Deps, serially: bool)
    ensures Rounds(nodes, deps, {}, serially) == []
  {
    var ready := Ready(nodes, deps, {});
    if ready != [] {
      ReadyExactly(nodes, deps, {}, ready[0]);
      assert false;
    }
  }

  lemma NextRound(nodes: seq<Node>, deps: Deps, left: set<string>, serially: bool, order: seq<string>)
    requires Postorder(deps, order) && left != {} && left <= Set(order) && Set(order) <= Ids(nodes)
    ensures
      var round := Round(Ready(nodes, deps, left), serially);
      var rest := left - Set(round);
      && |rest| < |left| && Set(round) <= left
      && Rounds(nodes, deps, left, serially) == [round] + Rounds(nodes, deps, rest, serially)
      && Concat(Rounds(nodes, deps, left, serially)) == round + Concat(Rounds(nodes, deps, rest, serially))
  {
    hide Postorder, Round, Ready, Ids;
    SomebodyIsReady(nodes, deps, left, order);
    RoundShrinks(nodes, deps, left, serially);
    RoundsUnfold(nodes, deps, left, serially);
  }

  /** The loop of `topological_order`. */
  method ListRounds(nodes: seq<Node>, deps: Deps, ghost finish: seq<string>) returns (listed: seq<string>)
    requires Postorder(deps, finish) && Set(finish) == deps.Keys == Ids(nodes)
    ensures listed == Concat(Rounds(nodes, deps, Ids(nodes), false))
  {
    var left := deps.Keys;
    listed := [];
    hide Postorder, Ids, Rounds, Ready, Concat;
    while left != {}
      invariant left <= deps.Keys
      invariant listed + Concat(Rounds(nodes, deps, left, false)) == Concat(Rounds(nodes, deps, Ids(nodes), false))
      decreases |left|
    {
      NextRound(nodes, deps, left, false, finish);
      var ready := Names(Ready(nodes, deps, left));
      listed := listed + ready;
      left := left - Set(ready);
    }
    NothingLeft(nodes, deps, false);
    assert Concat([]) == [] by { ConcatOfNothing(); }
  }

  lemma ConcatOfNothing()
    ensures Concat([]) == []
  {
  }

  /** `None` stands for the exception: an order is given exactly for a valid graph. */
  method TopologicalOrder(nodes: seq<Node>) returns (order: Option<seq<string>>)
    ensures order.Some? <==> WellFormed(nodes) && !HasCycle(Known(nodes))
    ensures order.Some? ==> order.value == Concat(Rounds(nodes, Known(nodes), Ids(nodes), false))
    ensures order.Some? ==> TopologicalOrderOf(nodes, order.value)
  {
    var issues, finish := Validate(nodes);
    if issues != [] { return None; }
    hide Postorder, WellFormed, TopologicalOrderOf, HasCycle, Rounds, Concat;
    ConcatIsTopological(nodes, false, finish);
    var deps := Dependencies(nodes);
    var listed := ListRounds(nodes, deps, finish);
    order := Some(listed);
  }

  /** The test of `parallel_frontiers`: everything it depends on has completed. */
  lemma CompletedMeansReady(nodes: seq<Node>, deps: Deps, left: set<string>, completed: set<string>)
    requires Closed(deps) && deps.Keys == left + completed && left !! completed
    ensures forall n :: n in nodes && n.id in left ==> (IsReady(n, deps, left) <==> deps[n.id] <= completed)
  {
  }

  /** The list comprehension over candidates. */
  function Candidates(nodes: seq<Node>, deps: Deps, left: set<string>, completed: set<string>): seq<Node>
    requires left <= deps.Keys
  {
    if nodes == [] then []
    else
      (if nodes[0].id in left && deps[nodes[0].id] <= completed then [nodes[0]] else [])
      + Candidates(nodes[1..], deps, left, completed)
  }

  lemma {:induction false} CandidatesAreReady(nodes: seq<Node>, deps: Deps, left: set<string>, completed: set<string>)
    requires Closed(deps) && deps.Keys == left + completed && left !! completed
    ensures Candidates(nodes, deps, left, completed) == Ready(nodes, deps, left)
  {
    if nodes != [] {
      CandidatesAreReady(nodes[1..], deps, left, completed);
      CompletedMeansReady(nodes, deps, left, completed);
      assert nodes[0] in nodes;
    }
  }

  /** The loop of `parallel_frontiers`. */
  method ListFronts(nodes: seq<Node>, deps: Deps, ghost finish: seq<string>) returns (fronts: seq<seq<string>>)
    requires Closed(deps) && Postorder(deps, finish) && Set(finish) == deps.Keys == Ids(nodes)
    ensures fronts == Rounds(nodes, deps, Ids(nodes), true)
  {
    var left, completed := deps.Keys, {};
    fronts := [];
    hide Postorder, Ids, Rounds, Ready, Concat, Closed, Candidates;
    while left != {}
      invariant deps.Keys == left + completed && left !! completed
      invariant fronts + Rounds(nodes, deps, left, true) == Rounds(nodes, deps, Ids(nodes), true)
      decreases |left|
    {
      NextRound(nodes, deps, left, true, finish);
      var candidates := Candidates(nodes, deps, left, completed);
      CandidatesAreReady(nodes, deps, left, completed);
      var serial := FirstSerial(candidates);
      var ready := if serial < |candidates| then [candidates[serial].id] else Names(candidates);
      fronts := fronts + [ready];
      left := left - Set(ready);
      completed := completed + Set(ready);
    }
    NothingLeft(nodes, deps, true);
  }

  /**
   * The frontiers use every node once, none before what it depends on, and keep a node that may not run in
   * parallel on its own.
   */
  method ParallelFrontiers(nodes: seq<Node>) returns (frontiers: Option<seq<seq<string>>>)
    ensures frontiers.Some? <==> WellFormed(nodes) && !HasCycle(Known(nodes))
    ensures frontiers.Some? ==> frontiers.value == Rounds(nodes, Known(nodes), Ids(nodes), true)
    ensures frontiers.Some? ==> Schedules(Known(nodes), Ids(nodes), frontiers.value)
    ensures frontiers.Some? ==> TopologicalOrderOf(nodes, Concat(frontiers.value))
  {
    var issues, finish := Validate(nodes);
    if issues != [] { return None; }
    hide Postorder, WellFormed, TopologicalOrderOf, HasCycle, Rounds, Concat, Schedules, Closed;
    KnownClosed(nodes);
    ConcatIsTopological(nodes, true, finish);
    var deps := Dependencies(nodes);
    var fronts := ListFronts(nodes, deps, finish);
    frontiers := Some(fronts);
  }

  // ---------------------------------------------------------------- what the graph says

  /** Some node has this id, which is not empty. */
  ghost predicate HasNode(nodes: seq<Node>, id: string) {
    id != "" && exists i :: 0 <= i < |nodes| && nodes[i].id == id
  }

  /** The node takes an argument from `d` or repairs it. */
  predicate DependsOn(n: Node, d: string) { d in n.sources || n.repairOf == Some(d) }

  /** The dependencies of a node are the sources and repaired nodes that exist. */
  lemma KnownMeans(nodes: seq<Node>, id: string, d: string)
    ensures id in Known(nodes) <==> HasNode(nodes, id)
    ensures id in Known(nodes) ==>
              (d in Known(nodes)[id] <==> HasNode(nodes, d) && exists n :: n in nodes && n.id == id && DependsOn(n, d))
  {
    IdsMean(nodes, id);
    IdsMean(nodes, d);
  }

  lemma IdsMean(nodes: seq<Node>, id: string)
    ensures id in Ids(nodes) <==> HasNode(nodes, id)
  {
    if HasNode(nodes, id) {
      var i :| 0 <= i < |nodes| && nodes[i].id == id;
      assert nodes[i] in nodes;
    }
    if id in Ids(nodes) {
      var n :| n in nodes && n.id == id;
      var i :| 0 <= i < |nodes| && nodes[i] == n;
    }
  }

  /** A graph is faultless if ids are there and differ, nothing else is wrong, and nothing refers to a missing node. */
  lemma WellFormedMeans(nodes: seq<Node>)
    ensures WellFormed(nodes) <==>
              && (forall n :: n in nodes ==> n.id != "" && n.sound)
              && (forall i, j :: 0 <= i < j < |nodes| ==> nodes[i].id != nodes[j].id)
              && (forall n, d :: n in nodes && DependsOn(n, d) ==> HasNode(nodes, d))
  {
    forall d ensures d in Ids(nodes) <==> HasNode(nodes, d) { IdsMean(nodes, d); }
    forall n | n in nodes ensures Needs(n) <= Ids(nodes) <==> forall d :: DependsOn(n, d) ==> HasNode(nodes, d) {
      forall d ensures d in Needs(n) <==> DependsOn(n, d) { }
    }
    hide HasNode, DependsOn, Ids, Needs;
    assert forall i :: 0 <= i < |nodes| ==> nodes[i] in nodes;
  }

  /** In the order that is returned every node stands behind its sources and the node it repairs. */
  lemma OrderMeans(nodes: seq<Node>, order: seq<string>, n: Node, d: string)
    requires WellFormed(nodes) && TopologicalOrderOf(nodes, order) && n in nodes && DependsOn(n, d)
    ensures exists i, j :: 0 <= j < i < |order| && order[i] == n.id && order[j] == d
  {
    var k :| 0 <= k < |nodes| && nodes[k] == n;
    KnownIsNeeds(nodes, k);
    IdsMean(nodes, n.id);
    assert d in Known(nodes)[n.id];
    assert n.id in Set(order);
    var i :| 0 <= i < |order| && order[i] == n.id;
    assert d in order[..i];
    var j :| 0 <= j < i && order[j] == d;
  }

  /** The node is left and waits for nobody who is left. */
  predicate Waiting(n: Node, deps: Deps, left: set<string>) { n.id in left && n.id in deps && deps[n.id] !! left }

  /** The first of these nodes in the order of the graph that may not run in parallel. */
  ghost predicate FirstSerialOf(nodes: seq<Node>, deps: Deps, left: set<string>, i: int) {
    && 0 <= i < |nodes| && Waiting(nodes[i], deps, left) && !nodes[i].parallelizable
    && forall j :: 0 <= j < i && Waiting(nodes[j], deps, left) ==> nodes[j].parallelizable
  }

  /**
   * A round is everybody who is ready, or, for frontiers, the first serial node among them on its own; the next
   * one is a round of what is left then.
   */
  lemma RoundMeans(nodes: seq<Node>, deps: Deps, left: set<string>, serially: bool)
    ensures
      var rounds := Rounds(nodes, deps, left, serially);
      && (rounds == [] <==> forall n :: n in nodes ==> !Waiting(n, deps, left))
      && (rounds != [] ==> rounds[1..] == Rounds(nodes, deps, left - Set(rounds[0]), serially))
      && (rounds != [] && (!serially || forall n :: n in nodes && Waiting(n, deps, left) ==> n.parallelizable) ==>
            forall id :: id in rounds[0] <==> exists n :: n in nodes && n.id == id && Waiting(n, deps, left))
      && (rounds != [] && serially && (exists n :: n in nodes && Waiting(n, deps, left) && !n.parallelizable) ==>
            exists i :: FirstSerialOf(nodes, deps, left, i) && rounds[0] == [nodes[i].id])
  {
    var ready := Ready(nodes, deps, left);
    forall n ensures n in ready <==> n in nodes && Waiting(n, deps, left) { ReadyExactly(nodes, deps, left, n); }
    assert ready != [] ==> ready[0] in ready;
    if ready != [] {
      RoundsUnfold(nodes, deps, left, serially);
      hide Rounds, Ready, Waiting;
      if !serially || forall n :: n in ready ==> n.parallelizable {
        if serially { NoSerialNode(ready); }
        NamesOf(ready);
      } else {
        FrontIsFirstSerial(nodes, deps, left);
      }
    }
  }

  lemma NamesOf(nodes: seq<Node>)
    ensures forall id :: id in Names(nodes) <==> exists n :: n in nodes && n.id == id
  {
    forall id ensures id in Names(nodes) <==> exists n :: n in nodes && n.id == id {
      if n :| n in nodes && n.id == id {
        var i :| 0 <= i < |nodes| && nodes[i] == n;
        assert Names(nodes)[i] == id;
      }
      if id in Names(nodes) {
        var i :| 0 <= i < |nodes| && Names(nodes)[i] == id;
        assert nodes[i] in nodes;
      }
    }
  }

  /** The nodes that are ready, from the second on. */
  lemma ReadyTail(nodes: seq<Node>, deps: Deps, left: set<string>)
    requires nodes != []
    ensures
      var ready, rest := Ready(nodes, deps, left), Ready(nodes[1..], deps, left);
      if Waiting(nodes[0], deps, left) then ready == [nodes[0]] + rest else ready == rest
  {
  }

  lemma SerialBehind(ready: seq<Node>, rest: seq<Node>, first: Node)
    requires ready == [first] + rest
    ensures !first.parallelizable ==> FirstSerial(ready) == 0
    ensures first.parallelizable ==> FirstSerial(ready) == 1 + FirstSerial(rest)
  {
    assert ready[1..] == rest;
  }

  lemma SerialFirst(nodes: seq<Node>, deps: Deps, left: set<string>)
    requires nodes != [] && Waiting(nodes[0], deps, left) && !nodes[0].parallelizable
    ensures FirstSerialOf(nodes, deps, left, 0)
  {
  }

  lemma FirstSerialShifts(nodes: seq<Node>, deps: Deps, left: set<string>, k: int)
    requires nodes != [] && (Waiting(nodes[0], deps, left) ==> nodes[0].parallelizable)
    requires FirstSerialOf(nodes[1..], deps, left, k)
    ensures FirstSerialOf(nodes, deps, left, k + 1) && nodes[k + 1] == nodes[1..][k]
  {
    hide Waiting;
    forall j | 0 <= j < k + 1 && Waiting(nodes[j], deps, left) ensures nodes[j].parallelizable {
      if j > 0 { assert nodes[j] == nodes[1..][j - 1]; }
    }
  }

  lemma {:induction false} SerialAmongReady(nodes: seq<Node>, deps: Deps, left: set<string>) returns (i: int)
    requires FirstSerial(Ready(nodes, deps, left)) < |Ready(nodes, deps, left)|
    ensures FirstSerialOf(nodes, deps, left, i)
    ensures nodes[i] == Ready(nodes, deps, left)[FirstSerial(Ready(nodes, deps, left))]
  {
    var ready, rest := Ready(nodes, deps, left), Ready(nodes[1..], deps, left);
    ReadyTail(nodes, deps, left);
    hide Ready, FirstSerial, Waiting, FirstSerialOf;
    if Waiting(nodes[0], deps, left) { SerialBehind(ready, rest, nodes[0]); }
    if Waiting(nodes[0], deps, left) && !nodes[0].parallelizable {
      SerialFirst(nodes, deps, left);
      i := 0;
    } else {
      var k := SerialAmongReady(nodes[1..], deps, left);
      FirstSerialShifts(nodes, deps, left, k);
      i := k + 1;
    }
  }

  lemma FrontIsFirstSerial(nodes: seq<Node>, deps: Deps, left: set<string>)
    requires !(forall n :: n in Ready(nodes, deps, left) ==> n.parallelizable)
    ensures exists i :: FirstSerialOf(nodes, deps, left, i) && Front(Ready(nodes, deps, left)) == [nodes[i].id]
  {
    var ready := Ready(nodes, deps, left);
    var n :| n in ready && !n.parallelizable;
    var m :| 0 <= m < |ready| && ready[m] == n;
    assert FirstSerial(ready) <= m;
    var i := SerialAmongReady(nodes, deps, left);
  }
}
