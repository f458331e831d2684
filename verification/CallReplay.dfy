/**
 * Running an ordered call graph, recording the run and replaying it.  The sandbox is an oracle; hashes and the
 * message authentication code are parameters, taken as injective where a theorem says so.
 */
module CallReplay {
  import opened Common
  import opened Json
  import opened CallGraphs
  import Dag = DagSchedule

  /** `resolveReferences`; a missing output, which would make the program throw, is never met. */
  function Resolve(v: Value, outputs: map<string, Value>): Value {
    if IsReference(v) then if Target(v) in outputs then outputs[Target(v)] else Null
    else
      match v
      case Arr(items) => Arr(seq(|items|, i requires 0 <= i < |items| => Resolve(items[i], outputs)))
      case Obj(fields) => Obj(map k | k in fields :: Resolve(fields[k], outputs))
      case _ => v
  }

  lemma RefsInside(v: Value)
    requires !IsReference(v)
    ensures v.Arr? ==> forall i :: 0 <= i < |v.items| ==> Refs(v.items[i]) <= Refs(v)
    ensures v.Obj? ==> forall k :: k in v.fields ==> Refs(v.fields[k]) <= Refs(v)
  {
  }

  /** Only the outputs that are referred to matter. */
  lemma {:induction false} ResolveSame(v: Value, a: map<string, Value>, b: map<string, Value>)
    requires forall r :: r in Refs(v) ==> r in a && r in b && a[r] == b[r]
    ensures Resolve(v, a) == Resolve(v, b)
  {
    if !IsReference(v) {
      RefsInside(v);
      hide Refs;
      if v.Arr? {
        forall i | 0 <= i < |v.items| ensures Resolve(v.items[i], a) == Resolve(v.items[i], b) {
          assert Refs(v.items[i]) <= Refs(v);
          ResolveSame(v.items[i], a, b);
        }
      } else if v.Obj? {
        forall k | k in v.fields ensures Resolve(v.fields[k], a) == Resolve(v.fields[k], b) {
          assert Refs(v.fields[k]) <= Refs(v);
          ResolveSame(v.fields[k], a, b);
        }
      }
    }
  }

  datatype Core = Core(sequence: nat, nodeId: string, tool: string, inputHash: nat, output: Value, toolHash: nat)

  datatype Record = Record(core: Core, tag: nat)

  /** `accepts`: the output fits its schema and the size limit. */
  datatype Env = Env(tools: Tools, allowed: set<string>, key: nat, hash: Value -> nat, toolHash: Tool -> nat,
                     mac: (Core, nat) -> nat, accepts: (Tool, Value) -> bool)

  /** The map of outputs after the first calls have returned `values`. */
  function OutputsOf(ordered: seq<Node>, values: seq<Value>): map<string, Value>
    requires |values| <= |ordered|
  {
    if values == [] then map[]
    else
      var last := |values| - 1;
      OutputsOf(ordered, values[..last])[ordered[last].id := values[last]]
  }

  function InputAt(ordered: seq<Node>, values: seq<Value>, i: nat): Value
    requires i <= |values| && i < |ordered| && |values| <= |ordered|
  {
    Resolve(ordered[i].arguments, OutputsOf(ordered, values[..i]))
  }

  predicate ToolsExist(env: Env, ordered: seq<Node>) {
    forall i :: 0 <= i < |ordered| ==> ordered[i].tool in env.tools
  }

  predicate Permitted(env: Env, ordered: seq<Node>)
    requires ToolsExist(env, ordered)
  {
    forall i :: 0 <= i < |ordered| ==> env.tools[ordered[i].tool].capability in env.allowed
  }

  function MakeReplay(env: Env, sequence: nat, n: Node, input: Value, output: Value): Record
    requires n.tool in env.tools
  {
    var core := Core(sequence, n.id, n.tool, env.hash(input), output, env.toolHash(env.tools[n.tool]));
    Record(core, env.mac(core, env.key))
  }

  /** What recording a run with these outputs leaves behind. */
  function Recorded(env: Env, ordered: seq<Node>, values: seq<Value>): (records: seq<Record>)
    requires ToolsExist(env, ordered) && |values| <= |ordered|
    ensures |records| == |values|
    ensures forall i :: 0 <= i < |values| ==>
              records[i] == MakeReplay(env, i, ordered[i], InputAt(ordered, values, i), values[i])
  {
    seq(|values|, i requires 0 <= i < |values| =>
      MakeReplay(env, i, ordered[i], InputAt(ordered, values, i), values[i]))
  }

  predicate Verified(env: Env, r: Record, sequence: nat, n: Node, input: Value)
    requires n.tool in env.tools
  {
    && r.tag == env.mac(r.core, env.key)
    && r.core.sequence == sequence && r.core.nodeId == n.id && r.core.tool == n.tool
    && r.core.inputHash == env.hash(input) && r.core.toolHash == env.toolHash(env.tools[n.tool])
  }

  function RecordedOutputs(records: seq<Record>): (values: seq<Value>)
    ensures |values| == |records| && forall i :: 0 <= i < |records| ==> values[i] == records[i].core.output
  {
    seq(|records|, i requires 0 <= i < |records| => records[i].core.output)
  }

  predicate Acceptable(env: Env, ordered: seq<Node>, values: seq<Value>)
    requires ToolsExist(env, ordered) && |values| <= |ordered|
  {
    forall i :: 0 <= i < |values| ==> env.accepts(env.tools[ordered[i].tool], values[i])
  }

  /** The records `executeCallGraph` goes through with, in replay mode. */
  predicate Replays(env: Env, ordered: seq<Node>, records: seq<Record>)
    requires ToolsExist(env, ordered)
  {
    && |records| == |ordered| && Permitted(env, ordered)
    && Acceptable(env, ordered, RecordedOutputs(records))
    && forall i :: 0 <= i < |records| ==>
         Verified(env, records[i], i, ordered[i], InputAt(ordered, RecordedOutputs(records), i))
  }

  /** Every reference of a call is to a call that has run, so nothing is ever left unresolved. */
  lemma EveryReferenceResolved(nodes: seq<Node>, ordered: seq<Node>, values: seq<Value>, i: nat)
    requires OrderOf(nodes, ordered) && UniqueIds(nodes) && |values| == |ordered| && i < |ordered|
    ensures Refs(ordered[i].arguments) <= OutputsOf(ordered, values[..i]).Keys
  {
    OwnNode(nodes, ordered[i]);
    OutputKeys(ordered, values[..i]);
    hide Refs, OutputsOf, UniqueIds, ById;
    forall r | r in Refs(ordered[i].arguments) ensures r in OutputsOf(ordered, values[..i]) {
      assert Names(ordered)[i] == ordered[i].id;
      assert r in FullNeeds(nodes)[ordered[i].id];
      assert r in Names(ordered)[..i];
    }
  }

  lemma {:induction false} OutputKeys(ordered: seq<Node>, values: seq<Value>)
    requires |values| <= |ordered|
    ensures OutputsOf(ordered, values).Keys == Dag.Set(Names(ordered)[..|values|])
  {
    if values != [] {
      var last := |values| - 1;
      OutputKeys(ordered, values[..last]);
      assert Names(ordered)[..|values|] == Names(ordered)[..last] + [ordered[last].id];
    }
  }

  lemma {:induction false} OutputAt(ordered: seq<Node>, values: seq<Value>, k: nat)
    requires |values| <= |ordered| && k < |values| && Dag.Distinct(Names(ordered))
    ensures ordered[k].id in OutputsOf(ordered, values) && OutputsOf(ordered, values)[ordered[k].id] == values[k]
  {
    var last := |values| - 1;
    if k < last {
      OutputAt(ordered, values[..last], k);
      assert Names(ordered)[k] != Names(ordered)[last];
    }
  }

  // ---------------------------------------------------------------- what resolving does

  /** The position is not inside a reference. */
  predicate Outside(v: Value, path: seq<Part>)
    decreases |path|
  {
    path == [] || (!IsReference(v) && Inside(v, path[0]).Some? && Outside(Inside(v, path[0]).value, path[1..]))
  }

  /** Resolving one level: a reference becomes the output it names, everything else keeps its shape. */
  lemma ResolveHere(v: Value, outputs: map<string, Value>)
    ensures forall r :: v == Reference(r) && r in outputs ==> Resolve(v, outputs) == outputs[r]
    ensures v.Null? || v.Bool? || v.Num? || v.Str? ==> Resolve(v, outputs) == v
    ensures v.Arr? ==> Resolve(v, outputs).Arr? && |Resolve(v, outputs).items| == |v.items|
    ensures v.Obj? && (forall r :: v != Reference(r)) ==> Resolve(v, outputs).Obj? && Resolve(v, outputs).fields.Keys == v.fields.Keys
  {
    if IsReference(v) { ReferenceMeans(v, Target(v)); }
    forall r | v == Reference(r) ensures IsReference(v) && Target(v) == r { ReferenceMeans(v, r); }
  }

  lemma {:induction false} ResolvedAt(v: Value, outputs: map<string, Value>, path: seq<Part>)
    requires Outside(v, path)
    ensures At(v, path).Some? && At(Resolve(v, outputs), path) == Some(Resolve(At(v, path).value, outputs))
    decreases |path|
  {
    if path != [] {
      assert Inside(Resolve(v, outputs), path[0]) == Some(Resolve(Inside(v, path[0]).value, outputs));
      ResolvedAt(Inside(v, path[0]).value, outputs, path[1..]);
    }
  }

  /**
   * After resolving, every position of the value that is not inside a reference holds what it held, of the same
   * kind and size, and where it held a reference it holds the output that was named.
   */
  lemma ResolveMeans(v: Value, outputs: map<string, Value>, path: seq<Part>)
    requires Outside(v, path)
    ensures At(v, path).Some? && At(Resolve(v, outputs), path).Some?
    ensures
      var was, now := At(v, path).value, At(Resolve(v, outputs), path).value;
      && (forall r :: was == Reference(r) && r in outputs ==> now == outputs[r])
      && (was.Null? || was.Bool? || was.Num? || was.Str? ==> now == was)
      && (was.Arr? ==> now.Arr? && |now.items| == |was.items|)
      && (was.Obj? && (forall r :: was != Reference(r)) ==> now.Obj? && now.fields.Keys == was.fields.Keys)
  {
    ResolvedAt(v, outputs, path);
    hide Resolve, Outside, At;
    ResolveHere(At(v, path).value, outputs);
  }

  /** A value without references stays as it is. */
  lemma {:induction false} NothingToResolve(v: Value, outputs: map<string, Value>)
    requires forall path, r :: !RefersTo(v, path, r)
    ensures Resolve(v, outputs) == v
  {
    forall r ensures r !in Refs(v) { RefsMean(v, r); }
    assert Refs(v) == {};
    NoRefs(v, outputs);
  }

  lemma ReferenceHasRef(v: Value)
    ensures IsReference(v) ==> Refs(v) != {}
  {
    if IsReference(v) { assert Target(v) in Refs(v); }
  }

  lemma {:induction false} NoRefs(v: Value, outputs: map<string, Value>)
    requires Refs(v) == {}
    ensures Resolve(v, outputs) == v
  {
    ReferenceHasRef(v);
    RefsInside(v);
    hide Refs;
    if v.Arr? {
      forall i | 0 <= i < |v.items| ensures Resolve(v.items[i], outputs) == v.items[i] {
        assert Refs(v.items[i]) <= Refs(v);
        NoRefs(v.items[i], outputs);
      }
    } else if v.Obj? {
      forall k | k in v.fields ensures Resolve(v.fields[k], outputs) == v.fields[k] {
        assert Refs(v.fields[k]) <= Refs(v);
        NoRefs(v.fields[k], outputs);
      }
    }
  }

  /** Wherever a call refers to an earlier one, its input has that one's output. */
  lemma InputHasOutput(ordered: seq<Node>, values: seq<Value>, i: nat, j: nat, path: seq<Part>)
    requires i < j < |ordered| && |values| == |ordered| && Dag.Distinct(Names(ordered))
    requires Outside(ordered[j].arguments, path) && RefersTo(ordered[j].arguments, path, ordered[i].id)
    ensures At(InputAt(ordered, values, j), path) == Some(values[i])
  {
    OutputAt(ordered, values[..j], i);
    ResolveMeans(ordered[j].arguments, OutputsOf(ordered, values[..j]), path);
    hide Resolve, OutputsOf, Outside;
  }

  /** Every call's record names its place, node, tool, output and the hashes of its input and tool, under the code. */
  lemma RecordMeans(env: Env, ordered: seq<Node>, values: seq<Value>, k: nat)
    requires ToolsExist(env, ordered) && |values| == |ordered| && k < |ordered|
    ensures
      var record := Recorded(env, ordered, values)[k];
      && record.core.sequence == k && record.core.nodeId == ordered[k].id && record.core.tool == ordered[k].tool
      && record.core.output == values[k] && record.core.toolHash == env.toolHash(env.tools[ordered[k].tool])
      && record.core.inputHash == env.hash(InputAt(ordered, values, k))
      && record.tag == env.mac(record.core, env.key)
  {
    hide InputAt;
  }

  /** So the record of a call whose argument is a reference to an earlier call has the hash of that call's output. */
  lemma ReferenceIsHashed(env: Env, ordered: seq<Node>, values: seq<Value>, i: nat, j: nat)
    requires ToolsExist(env, ordered) && |values| == |ordered| && i < j < |ordered| && Dag.Distinct(Names(ordered))
    requires ordered[j].arguments == Reference(ordered[i].id)
    ensures Recorded(env, ordered, values)[j].core.inputHash == env.hash(values[i])
  {
    InputHasOutput(ordered, values, i, j, []);
    RecordMeans(env, ordered, values, j);
    hide Recorded, InputAt;
  }

  ghost predicate HashesReferences(env: Env, ordered: seq<Node>, values: seq<Value>, records: seq<Record>) {
    && |records| == |values| == |ordered|
    && forall i, j :: 0 <= i < j < |ordered| && ordered[j].arguments == Reference(ordered[i].id) ==>
         records[j].core.inputHash == env.hash(values[i])
  }

  lemma RecordedHashes(env: Env, ordered: seq<Node>, values: seq<Value>)
    requires ToolsExist(env, ordered) && |values| == |ordered| && Dag.Distinct(Names(ordered))
    ensures HashesReferences(env, ordered, values, Recorded(env, ordered, values))
  {
    hide Recorded;
    forall i, j | 0 <= i < j < |ordered| && ordered[j].arguments == Reference(ordered[i].id)
      ensures Recorded(env, ordered, values)[j].core.inputHash == env.hash(values[i])
    {
      ReferenceIsHashed(env, ordered, values, i, j);
    }
  }

  // ---------------------------------------------------------------- record and replay

  /** Replaying what was recorded succeeds and returns the same outputs. */
  lemma ReplayRepeatsTheRun(env: Env, ordered: seq<Node>, values: seq<Value>)
    requires ToolsExist(env, ordered) && |values| == |ordered|
    requires Permitted(env, ordered) && Acceptable(env, ordered, values)
    ensures Replays(env, ordered, Recorded(env, ordered, values))
    ensures RecordedOutputs(Recorded(env, ordered, values)) == values
  {
    var records := Recorded(env, ordered, values);
    assert RecordedOutputs(records) == values;
    forall i | 0 <= i < |records| ensures Verified(env, records[i], i, ordered[i], InputAt(ordered, values, i)) {
      assert records[i] == MakeReplay(env, i, ordered[i], InputAt(ordered, values, i), values[i]);
    }
  }

  ghost predicate Unforgeable(env: Env) {
    forall a: Core, b: Core :: env.mac(a, env.key) == env.mac(b, env.key) ==> a == b
  }

  ghost predicate CollisionFree(env: Env) {
    && (forall a: Value, b: Value :: env.hash(a) == env.hash(b) ==> a == b)
    && (forall a: Tool, b: Tool :: env.toolHash(a) == env.toolHash(b) ==> a == b)
  }

  /**
   * Whoever can only reuse the tags of a recorded run can have nothing replayed but that run from its start: an
   * edited, dropped, repeated or reordered record is refused, also against another graph or other tools.
   */
  lemma OnlyTheRunReplays(env: Env, ordered: seq<Node>, values: seq<Value>, env': Env, ordered': seq<Node>,
                          records: seq<Record>)
    requires ToolsExist(env, ordered) && ToolsExist(env', ordered') && |values| == |ordered|
    requires env'.key == env.key && env'.mac == env.mac && Unforgeable(env)
    requires forall i :: 0 <= i < |records| ==>
               exists j :: 0 <= j < |values| && records[i].tag == Recorded(env, ordered, values)[j].tag
    requires Replays(env', ordered', records)
    ensures |records| == |ordered'| <= |ordered| && records == Recorded(env, ordered, values)[..|ordered'|]
    ensures |ordered'| == |ordered| ==> records == Recorded(env, ordered, values)
  {
    var genuine := Recorded(env, ordered, values);
    forall i | 0 <= i < |records| ensures i < |genuine| && records[i] == genuine[i] {
      var j :| 0 <= j < |values| && records[i].tag == genuine[j].tag;
      assert Verified(env', records[i], i, ordered'[i], InputAt(ordered', RecordedOutputs(records), i));
      assert genuine[j] == MakeReplay(env, j, ordered[j], InputAt(ordered, values, j), values[j]);
      assert records[i].core == genuine[j].core;
    }
    if |records| > 0 { var _ := records[|records| - 1]; }
    assert |records| <= |genuine|;
  }

  /** And it is replayed only for the same calls of the same tools on the same inputs. */
  lemma OnlyTheTrajectoryReplays(env: Env, ordered: seq<Node>, values: seq<Value>, env': Env, ordered': seq<Node>, i: nat)
    requires ToolsExist(env, ordered) && ToolsExist(env', ordered') && |values| == |ordered|
    requires env'.key == env.key && env'.mac == env.mac && env'.hash == env.hash && env'.toolHash == env.toolHash
    requires CollisionFree(env) && Replays(env', ordered', Recorded(env, ordered, values)) && i < |ordered'|
    ensures |ordered'| == |ordered|
    ensures ordered'[i].id == ordered[i].id && ordered'[i].tool == ordered[i].tool
    ensures env'.tools[ordered'[i].tool] == env.tools[ordered[i].tool]
    ensures InputAt(ordered', values, i) == InputAt(ordered, values, i)
  {
    var records := Recorded(env, ordered, values);
    assert RecordedOutputs(records) == values;
    assert Verified(env', records[i], i, ordered'[i], InputAt(ordered', values, i));
    assert records[i] == MakeReplay(env, i, ordered[i], InputAt(ordered, values, i), values[i]);
  }

  // ---------------------------------------------------------------- the order does not matter

  /** The outputs of tools that are functions of their inputs. */
  ghost predicate Computed(tools: Tools, f: (Tool, Value) -> Value, ordered: seq<Node>, values: seq<Value>) {
    && |values| == |ordered|
    && forall i :: 0 <= i < |ordered| ==>
         ordered[i].tool in tools && values[i] == f(tools[ordered[i].tool], InputAt(ordered, values, i))
  }

  lemma OrderFacts(nodes: seq<Node>, ordered: seq<Node>, id: string) returns (j: nat)
    requires OrderOf(nodes, ordered) && id in Ids(nodes)
    ensures j < |ordered| && ordered[j].id == id && Dag.Distinct(Names(ordered))
  {
    assert id in Ids(ordered);
    var n :| n in ordered && n.id == id;
    j :| 0 <= j < |ordered| && ordered[j] == n;
  }

  /** What a call sees of the outputs before it is what they are at the end. */
  lemma ArgumentsSettled(nodes: seq<Node>, ordered: seq<Node>, values: seq<Value>, j: nat)
    requires OrderOf(nodes, ordered) && UniqueIds(nodes) && |values| == |ordered| && j < |ordered|
    ensures InputAt(ordered, values, j) == Resolve(ordered[j].arguments, OutputsOf(ordered, values))
    ensures forall r :: r in Refs(ordered[j].arguments) ==> r in OutputsOf(ordered, values)
  {
    EveryReferenceResolved(nodes, ordered, values, j);
    var before, after := OutputsOf(ordered, values[..j]), OutputsOf(ordered, values);
    OutputKeys(ordered, values[..j]);
    hide OutputsOf, OrderOf, Resolve, UniqueIds, Refs;
    forall r | r in Refs(ordered[j].arguments) ensures r in before && r in after && before[r] == after[r] {
      assert r in Names(ordered)[..j];
      var k :| 0 <= k < j && Names(ordered)[k] == r;
      var _ := OrderFactsAt(nodes, ordered, j);
      OutputAt(ordered, values, k);
      OutputAt(ordered, values[..j], k);
    }
    ResolveSame(ordered[j].arguments, before, after);
  }

  lemma OrderFactsAt(nodes: seq<Node>, ordered: seq<Node>, j: nat) returns (n: Node)
    requires OrderOf(nodes, ordered) && j < |ordered|
    ensures n == ordered[j] && n in nodes && Dag.Distinct(Names(ordered))
  {
    n := ordered[j];
  }

  lemma SameNode(nodes: seq<Node>, m: Node, n: Node)
    requires UniqueIds(nodes) && m in nodes && n in nodes && m.id == n.id
    ensures m == n
  {
  }

  lemma {:induction false} SameOutput(nodes: seq<Node>, tools: Tools, f: (Tool, Value) -> Value, a: seq<Node>,
                                      u: seq<Value>, b: seq<Node>, v: seq<Value>, i: nat)
    requires UniqueIds(nodes) && OrderOf(nodes, a) && OrderOf(nodes, b)
    requires Computed(tools, f, a, u) && Computed(tools, f, b, v) && i < |a|
    ensures a[i].id in OutputsOf(b, v) && OutputsOf(b, v)[a[i].id] == u[i]
    decreases i
  {
    hide OrderOf, UniqueIds, OutputsOf, Resolve, Refs;
    var n := OrderFactsAt(nodes, a, i);
    InIds(nodes, n);
    var j := OrderFacts(nodes, b, n.id);
    var m := OrderFactsAt(nodes, b, j);
    SameNode(nodes, m, n);
    ArgumentsSettled(nodes, a, u, i);
    ArgumentsSettled(nodes, b, v, j);
    EveryReferenceResolved(nodes, a, u, i);
    OutputKeys(a, u[..i]);
    var mine, theirs := OutputsOf(a, u), OutputsOf(b, v);
    forall r | r in Refs(n.arguments) ensures r in mine && r in theirs && mine[r] == theirs[r] {
      assert r in Names(a)[..i];
      var k :| 0 <= k < i && Names(a)[k] == r;
      SameOutput(nodes, tools, f, a, u, b, v, k);
      OutputAt(a, u, k);
    }
    ResolveSame(n.arguments, mine, theirs);
    OutputAt(b, v, j);
  }

  lemma InIds(nodes: seq<Node>, n: Node)
    requires n in nodes
    ensures n.id in Ids(nodes)
  {
  }

  /** Whichever order the executor picks, the outputs of a graph of deterministic tools are the same. */
  lemma OutputsDoNotDependOnOrder(nodes: seq<Node>, tools: Tools, f: (Tool, Value) -> Value, a: seq<Node>,
                                  u: seq<Value>, b: seq<Node>, v: seq<Value>)
    requires UniqueIds(nodes) && OrderOf(nodes, a) && OrderOf(nodes, b)
    requires Computed(tools, f, a, u) && Computed(tools, f, b, v)
    ensures OutputsOf(a, u) == OutputsOf(b, v)
  {
    var mine, theirs := OutputsOf(a, u), OutputsOf(b, v);
    FinalKeys(nodes, a, u);
    FinalKeys(nodes, b, v);
    hide UniqueIds, OutputsOf, Computed, OrderOf;
    forall id | id in mine ensures mine[id] == theirs[id] {
      var i := OrderFacts(nodes, a, id);
      SameOutput(nodes, tools, f, a, u, b, v, i);
      OutputAt(a, u, i);
    }
  }

  lemma FinalKeys(nodes: seq<Node>, ordered: seq<Node>, values: seq<Value>)
    requires OrderOf(nodes, ordered) && |values| == |ordered|
    ensures OutputsOf(ordered, values).Keys == Ids(nodes)
  {
    OutputKeys(ordered, values);
    hide OutputsOf;
    assert Names(ordered)[..|values|] == Names(ordered);
    assert forall i :: 0 <= i < |ordered| ==> ordered[i] in ordered;
    forall id ensures id in Dag.Set(Names(ordered)) <==> id in Ids(ordered) {
      if id in Ids(ordered) {
        var n :| n in ordered && n.id == id;
        var i :| 0 <= i < |ordered| && ordered[i] == n;
        assert Names(ordered)[i] == id;
      }
    }
  }

  // ---------------------------------------------------------------- the execute loop

  /** The capability check before anything runs. */
  method CheckCapabilities(env: Env, ordered: seq<Node>) returns (allowed: bool)
    requires ToolsExist(env, ordered)
    ensures allowed <==> Permitted(env, ordered)
  {
    for i := 0 to |ordered|
      invariant forall k :: 0 <= k < i ==> env.tools[ordered[k].tool].capability in env.allowed
    {
      if env.tools[ordered[i].tool].capability !in env.allowed { return false; }
    }
    return true;
  }

  datatype Execution = Execution(outputs: map<string, Value>, replay: seq<Record>)

  /** `answers[i]` is what the sandbox makes of call `i`; `None` when it fails. */
  predicate Succeeds(env: Env, ordered: seq<Node>, answers: seq<Option<Value>>)
    requires ToolsExist(env, ordered) && |answers| == |ordered|
  {
    && Permitted(env, ordered)
    && forall i :: 0 <= i < |answers| ==> answers[i].Some? && env.accepts(env.tools[ordered[i].tool], answers[i].value)
  }

  function Answered(answers: seq<Option<Value>>): seq<Value>
    requires forall i :: 0 <= i < |answers| ==> answers[i].Some?
  {
    seq(|answers|, i requires 0 <= i < |answers| => answers[i].value)
  }

  /** Nothing runs, or is replayed, unless every call's capability is allowed, and no output passes unaccepted. */
  lemma RunsMean(env: Env, ordered: seq<Node>, answers: seq<Option<Value>>, records: seq<Record>)
    requires ToolsExist(env, ordered) && |answers| == |ordered|
    ensures Succeeds(env, ordered, answers) <==>
              forall i :: 0 <= i < |ordered| ==>
                && env.tools[ordered[i].tool].capability in env.allowed
                && answers[i].Some? && env.accepts(env.tools[ordered[i].tool], answers[i].value)
    ensures Replays(env, ordered, records) ==>
              && |records| == |ordered|
              && forall i :: 0 <= i < |ordered| ==>
                   && env.tools[ordered[i].tool].capability in env.allowed
                   && env.accepts(env.tools[ordered[i].tool], records[i].core.output)
                   && records[i].tag == env.mac(records[i].core, env.key) && records[i].core.sequence == i
                   && records[i].core.nodeId == ordered[i].id && records[i].core.tool == ordered[i].tool
                   && records[i].core.toolHash == env.toolHash(env.tools[ordered[i].tool])
                   && records[i].core.inputHash == env.hash(InputAt(ordered, RecordedOutputs(records), i))
  {
    hide InputAt;
  }

  lemma OutputsStep(ordered: seq<Node>, values: seq<Value>, v: Value)
    requires |values| < |ordered|
    ensures OutputsOf(ordered, values + [v]) == OutputsOf(ordered, values)[ordered[|values|].id := v]
    ensures InputAt(ordered, values + [v], |values|) == Resolve(ordered[|values|].arguments, OutputsOf(ordered, values))
  {
    assert (values + [v])[..|values|] == values;
  }

  lemma RecordedStep(env: Env, ordered: seq<Node>, values: seq<Value>, v: Value)
    requires ToolsExist(env, ordered) && |values| < |ordered|
    ensures Recorded(env, ordered, values + [v]) == Recorded(env, ordered, values)
              + [MakeReplay(env, |values|, ordered[|values|],
                            Resolve(ordered[|values|].arguments, OutputsOf(ordered, values)), v)]
  {
    hide InputAt, OutputsOf, MakeReplay, Resolve;
    OutputsStep(ordered, values, v);
    var more := values + [v];
    forall i | 0 <= i < |values| ensures InputAt(ordered, more, i) == InputAt(ordered, values, i) {
      InputAppended(ordered, values, v, i);
    }
    assert Recorded(env, ordered, more)[..|values|] == Recorded(env, ordered, values);
  }

  lemma InputAppended(ordered: seq<Node>, values: seq<Value>, v: Value, i: nat)
    requires |values| < |ordered| && i < |values|
    ensures InputAt(ordered, values + [v], i) == InputAt(ordered, values, i)
  {
    assert (values + [v])[..i] == values[..i];
  }

  lemma InputIs(ordered: seq<Node>, values: seq<Value>, i: nat)
    requires i < |values| <= |ordered|
    ensures InputAt(ordered, values, i) == Resolve(ordered[i].arguments, OutputsOf(ordered, values[..i]))
    ensures OutputsOf(ordered, values[..i + 1]) == OutputsOf(ordered, values[..i])[ordered[i].id := values[i]]
  {
    assert values[..i + 1] == values[..i] + [values[i]];
    OutputsStep(ordered, values[..i], values[i]);
  }

  /** `verifyReplay`. */
  method VerifyReplay(env: Env, r: Record, sequence: nat, n: Node, input: Value) returns (output: Option<Value>)
    requires n.tool in env.tools
    ensures output == if Verified(env, r, sequence, n, input) then Some(r.core.output) else None
  {
    var core := r.core;
    if env.mac(core, env.key) != r.tag || core.sequence != sequence || core.nodeId != n.id || core.tool != n.tool
       || core.inputHash != env.hash(input) || core.toolHash != env.toolHash(env.tools[n.tool])
    {
      return None;
    }
    return Some(core.output);
  }

  /** The loop in record mode. */
  method ExecuteRecording(env: Env, ordered: seq<Node>, answers: seq<Option<Value>>) returns (result: Option<Execution>)
    requires ToolsExist(env, ordered) && |answers| == |ordered|
    ensures result.Some? <==> Succeeds(env, ordered, answers)
    ensures result.Some? ==>
              && result.value.outputs == OutputsOf(ordered, Answered(answers))
              && result.value.replay == Recorded(env, ordered, Answered(answers))
    ensures result.Some? && Dag.Distinct(Names(ordered)) ==> HashesReferences(env, ordered, Answered(answers), result.value.replay)
  {
    var allowed := CheckCapabilities(env, ordered);
    if !allowed { return None; }
    var outputs, generated := map[], [];
    ghost var values := [];
    for i := 0 to |ordered|
      invariant |values| == i && forall k :: 0 <= k < i ==>
                  answers[k] == Some(values[k]) && env.accepts(env.tools[ordered[k].tool], values[k])
      invariant outputs == OutputsOf(ordered, values) && generated == Recorded(env, ordered, values)
    {
      var n := ordered[i];
      var input := Resolve(n.arguments, outputs);
      if answers[i].None? || !env.accepts(env.tools[n.tool], answers[i].value) { return None; }
      var output := answers[i].value;
      OutputsStep(ordered, values, output);
      RecordedStep(env, ordered, values, output);
      hide OutputsOf, Recorded, Resolve, MakeReplay;
      outputs := outputs[n.id := output];
      generated := generated + [MakeReplay(env, i, n, input, output)];
      values := values + [output];
    }
    assert values == Answered(answers);
    result := Some(Execution(outputs, generated));
    if Dag.Distinct(Names(ordered)) { RecordedHashes(env, ordered, values); }
  }

  /** The loop in replay mode. */
  method ExecuteReplay(env: Env, ordered: seq<Node>, records: seq<Record>) returns (outputs: Option<map<string, Value>>)
    requires ToolsExist(env, ordered)
    ensures outputs.Some? <==> Replays(env, ordered, records)
    ensures outputs.Some? ==> outputs.value == OutputsOf(ordered, RecordedOutputs(records))
  {
    hide Resolve, OutputsOf, InputAt, Verified, Permitted;
    if |records| != |ordered| { return None; }
    var allowed := CheckCapabilities(env, ordered);
    if !allowed { return None; }
    ghost var all := RecordedOutputs(records);
    var seen := map[];
    assert all[..0] == [];
    NoOutputs(ordered);
    for i := 0 to |ordered|
      invariant seen == OutputsOf(ordered, all[..i])
      invariant forall k :: 0 <= k < i ==>
                  && Verified(env, records[k], k, ordered[k], InputAt(ordered, all, k))
                  && env.accepts(env.tools[ordered[k].tool], all[k])
    {
      var n := ordered[i];
      InputIs(ordered, all, i);
      var output := VerifyReplay(env, records[i], i, n, Resolve(n.arguments, seen));
      if output.None? || !env.accepts(env.tools[n.tool], output.value) { return None; }
      seen := seen[n.id := output.value];
    }
    assert all[..|ordered|] == all;
    outputs := Some(seen);
  }

  lemma NoOutputs(ordered: seq<Node>)
    ensures OutputsOf(ordered, []) == map[]
  {
  }
}
