/** The readiness gate of eager mode and the capacity it guarantees. */
module Readiness {
  import opened Common
  import opened Fleet

  type Gates = seq<map<string, string>>

  const NODE_READY := "Ready"
  const CONDITION_TRUE := "True"

  predicate IsNodeReady(node: Node) {
    exists c :: c in node.conditions && c.kind == NODE_READY && c.status == CONDITION_TRUE
  }

  /** An absent label reads as the empty string. */
  function Label(node: Node, key: string): string {
    if key in node.labels then node.labels[key] else ""
  }

  predicate IsNodePassesReadinessGates(node: Node, gates: Gates) {
    forall i :: 0 <= i < |gates| ==> forall key :: key in gates[i] ==> Label(node, key) == gates[i][key]
  }

  predicate Serves(node: Node, inService: seq<InstanceId>, gates: Gates) {
    GetNodeInstanceID(node) in inService && IsNodeReady(node) && IsNodePassesReadinessGates(node, gates)
  }

  function ServingId(node: Node, inService: seq<InstanceId>, gates: Gates): seq<InstanceId> {
    if Serves(node, inService, gates) then [GetNodeInstanceID(node)] else []
  }

  /** The instance IDs of the nodes that count as ready, one entry per node. */
  function ServingIds(nodes: seq<Node>, inService: seq<InstanceId>, gates: Gates): seq<InstanceId> {
    if nodes == [] then [] else
      ServingIds(nodes[..|nodes| - 1], inService, gates) + ServingId(nodes[|nodes| - 1], inService, gates)
  }

  lemma ServingSnoc(init: seq<Node>, last: Node, inService: seq<InstanceId>, gates: Gates)
    ensures ServingIds(init + [last], inService, gates) ==
            ServingIds(init, inService, gates) + ServingId(last, inService, gates)
  {
    assert (init + [last])[..|init|] == init;
  }

  predicate DesiredReady(group: Group, nodes: seq<Node>, gates: Gates) {
    var inService := InServiceIds(group.instances);
    |inService| == group.desired && |ServingIds(nodes, inService, gates)| == group.desired
  }

  /** `listed` is the node list read now; when that call fails the cached nodes are counted instead. */
  method DesiredNodesReady(group: Group, listed: Option<seq<Node>>, cached: seq<Node>, gates: Gates)
    returns (ready: bool)
    ensures ready <==> DesiredReady(group, if listed.Some? then listed.value else cached, gates)
  {
    var inService := GetInServiceInstanceIDs(group.instances);
    if |inService| != group.desired {
      return false;
    }
    var nodes := if listed.Some? then listed.value else cached;
    var readyNodes := 0;
    for i := 0 to |nodes|
      invariant readyNodes == |ServingIds(nodes[..i], inService, gates)|
    {
      assert nodes[..i + 1][..i] == nodes[..i];
      if Serves(nodes[i], inService, gates) {
        readyNodes := readyNodes + 1;
      }
    }
    assert nodes[..|nodes|] == nodes;
    return readyNodes == group.desired;
  }

  // ----- counting -----

  lemma {:induction false} ServingMember(nodes: seq<Node>, inService: seq<InstanceId>, gates: Gates, id: InstanceId)
    ensures id in ServingIds(nodes, inService, gates) <==>
            exists n :: n in nodes && GetNodeInstanceID(n) == id && Serves(n, inService, gates)
  {
    if nodes != [] {
      ServingMember(nodes[..|nodes| - 1], inService, gates, id);
      assert nodes == nodes[..|nodes| - 1] + [nodes[|nodes| - 1]];
    }
  }

  /** The node reports that it is ready, and carries every label with the value a gate asks for. */
  ghost predicate Usable(n: Node, gates: Gates) {
    && Condition("Ready", "True") in n.conditions
    && forall g :: g in gates ==> forall key :: key in g ==>
         if key in n.labels then n.labels[key] == g[key] else g[key] == ""
  }

  lemma UsableMeans(n: Node, gates: Gates)
    ensures Usable(n, gates) <==> IsNodeReady(n) && IsNodePassesReadinessGates(n, gates)
  {
    assert forall c :: c in n.conditions && c.kind == "Ready" && c.status == "True" ==> c == Condition("Ready", "True");
    if Usable(n, gates) {
      var c := Condition("Ready", "True");
      assert c in n.conditions && c.kind == NODE_READY && c.status == CONDITION_TRUE;
      forall i, key | 0 <= i < |gates| && key in gates[i]
        ensures Label(n, key) == gates[i][key]
      {
        assert gates[i] in gates;
      }
    }
    if IsNodePassesReadinessGates(n, gates) {
      forall g, key | g in gates && key in g
        ensures if key in n.labels then n.labels[key] == g[key] else g[key] == ""
      {
        var i :| 0 <= i < |gates| && gates[i] == g;
        assert Label(n, key) == gates[i][key];
      }
    }
  }

  /** A usable node runs on the instance. */
  ghost predicate Covered(id: InstanceId, nodes: seq<Node>, gates: Gates) {
    exists n :: n in nodes && GetNodeInstanceID(n) == id && Usable(n, gates)
  }

  ghost predicate AllCovered(instances: seq<Instance>, nodes: seq<Node>, gates: Gates) {
    forall id :: id in InServiceIds(instances) ==> Covered(id, nodes, gates)
  }

  /** No two of the nodes that are counted run on one instance. */
  ghost predicate CountedOnce(group: Group, nodes: seq<Node>, gates: Gates) {
    Distinct(ServingIds(nodes, InServiceIds(group.instances), gates))
  }

  /**
   * The gate counts nodes. For a group with its desired number of InService instances, an open gate
   * means that all of them are covered exactly when no instance was counted twice; and when all are
   * covered the gate opens exactly when none was, so that two ready nodes of one instance keep it shut.
   */
  lemma GateMeansCovered(group: Group, nodes: seq<Node>, gates: Gates)
    requires DistinctIds(group.instances)
    ensures DesiredReady(group, nodes, gates) ==>
      (AllCovered(group.instances, nodes, gates) <==> CountedOnce(group, nodes, gates))
    ensures |InServiceIds(group.instances)| == group.desired && AllCovered(group.instances, nodes, gates) ==>
      (DesiredReady(group, nodes, gates) <==> CountedOnce(group, nodes, gates))
  {
    var inService := InServiceIds(group.instances);
    var serving := ServingIds(nodes, inService, gates);
    InServiceDistinct(group.instances);
    forall n
      ensures Usable(n, gates) <==> IsNodeReady(n) && IsNodePassesReadinessGates(n, gates)
    {
      UsableMeans(n, gates);
    }
    forall id
      ensures id in serving <==> id in inService && Covered(id, nodes, gates)
    {
      ServingMember(nodes, inService, gates, id);
    }
    DistinctCard(inService);
    CountsAgree(serving, inService);
    if AllCovered(group.instances, nodes, gates) {
      assert Elems(serving) == Elems(inService);
    }
    if Elems(serving) == Elems(inService) {
      assert forall id :: id in inService ==> id in Elems(serving);
    }
  }

  /** Of three facts about a list inside a set, any two give the third: as long, without repetition, the whole set. */
  lemma CountsAgree<T>(s: seq<T>, all: seq<T>)
    requires Distinct(all) && Elems(s) <= Elems(all)
    ensures |s| == |all| ==> (Elems(s) == Elems(all) <==> Distinct(s))
    ensures Elems(s) == Elems(all) ==> (|s| == |all| <==> Distinct(s))
  {
    DistinctCard(all);
    if Distinct(s) {
      DistinctCard(s);
      if |s| == |all| {
        SubsetOfSameSize(Elems(s), Elems(all));
      }
    }
    if Elems(s) == Elems(all) && |s| == |all| {
      FullCardDistinct(s);
    }
  }

  function ReadyNode(name: string, id: InstanceId): Node {
    Node(name, ['/'] + id, 0, [Condition(NODE_READY, CONDITION_TRUE)], map[])
  }

  lemma ReadyNodeId(name: string, id: InstanceId)
    requires '/' !in id
    ensures GetNodeInstanceID(ReadyNode(name, id)) == id && IsNodeReady(ReadyNode(name, id))
  {
    assert ['/'] + id == "" + ['/'] + id;
    LastTokenOfPath("", id);
    assert ReadyNode(name, id).conditions[0] in ReadyNode(name, id).conditions;
  }

  lemma BothInService(a: Instance, b: Instance)
    requires a.lifecycle == b.lifecycle == InService
    ensures InServiceIds([a, b]) == [a.id, b.id]
  {
    InServiceSnoc([], a);
    InServiceSnoc([a], b);
    assert [] + [a] == [a] && [a] + [b] == [a, b];
  }

  lemma BothServe(x: Node, y: Node, inService: seq<InstanceId>)
    requires Serves(x, inService, []) && Serves(y, inService, [])
    ensures ServingIds([x, y], inService, []) == [GetNodeInstanceID(x), GetNodeInstanceID(y)]
  {
    ServingSnoc([], x, inService, []);
    ServingSnoc([x], y, inService, []);
    assert [] + [x] == [x] && [x] + [y] == [x, y];
  }

  /**
   * Two nodes with one instance ID open the gate of a two-instance group although the other InService
   * instance has no node at all.
   */
  lemma SharedNodeIdFoolsGate(a: Instance, b: Instance, n1: string, n2: string)
    requires a.id != b.id && '/' !in a.id && a.lifecycle == b.lifecycle == InService
    ensures var group := Group("g", 2, [a, b], None, None, None);
      var nodes := [ReadyNode(n1, a.id), ReadyNode(n2, a.id)];
      && DistinctIds(group.instances) && DesiredReady(group, nodes, [])
      && !AllCovered(group.instances, nodes, [])
  {
    var x, y := ReadyNode(n1, a.id), ReadyNode(n2, a.id);
    ReadyNodeId(n1, a.id);
    ReadyNodeId(n2, a.id);
    var nodes, inService := [x, y], [a.id, b.id];
    BothInService(a, b);
    assert a.id == inService[0] && b.id == inService[1];
    BothServe(x, y, inService);
    assert b.id in inService && !Covered(b.id, nodes, []);
  }

  /** Two ready nodes on the only instance of a group keep its gate shut. */
  lemma SharedNodeIdShutsGate(a: Instance, n1: string, n2: string)
    requires '/' !in a.id && a.lifecycle == InService
    ensures var group := Group("g", 1, [a], None, None, None);
      var nodes := [ReadyNode(n1, a.id), ReadyNode(n2, a.id)];
      && |InServiceIds(group.instances)| == group.desired && AllCovered(group.instances, nodes, [])
      && !DesiredReady(group, nodes, [])
  {
    var x, y := ReadyNode(n1, a.id), ReadyNode(n2, a.id);
    ReadyNodeId(n1, a.id);
    ReadyNodeId(n2, a.id);
    var nodes := [x, y];
    InServiceSnoc([], a);
    assert [] + [a] == [a];
    assert InServiceIds([a]) == [a.id] && a.id in [a.id];
    assert x in nodes && Covered(a.id, nodes, []);
    BothServe(x, y, [a.id]);
  }

  // ----- capacity -----

  lemma {:induction false} InServiceWithout(instances: seq<Instance>, gone: set<InstanceId>)
    requires forall i :: i in instances && i.lifecycle == InService ==> i.id !in gone
    ensures InServiceIds(Without(instances, gone)) == InServiceIds(instances)
  {
    if instances != [] {
      var init, last := instances[..|instances| - 1], instances[|instances| - 1];
      InServiceWithout(init, gone);
      InServiceSnoc(Without(init, gone), last);
      assert last in instances;
    }
  }

  /** An InService member has its ID to itself, so a batch of other members does not hold it. */
  lemma InServiceOutside(group: Group, batch: seq<Instance>, i: Instance)
    requires DistinctIds(group.instances) && i in group.instances && i.lifecycle == InService
    requires (forall j :: j in batch ==> j in group.instances) && InServiceIds(batch) == []
    ensures i.id !in Ids(batch)
  {
    if i.id in Ids(batch) {
      var j :| j in batch && j.id == i.id;
      SelectsTheMember(group.instances, i);
      SelectsTheMember(group.instances, j);
      InServiceMember(batch, j.id);
    }
  }

  /**
   * Eager capacity: past the gate, with no InService instance in the batch, no InService ID is in the
   * batch, the group without it still has its desired number of InService instances, and each of these
   * has a ready, gate-passing node exactly when the gate counted none twice.
   */
  lemma CapacityWithoutBatch(group: Group, nodes: seq<Node>, gates: Gates, batch: seq<Instance>)
    requires DistinctIds(group.instances) && (forall i :: i in batch ==> i in group.instances)
    requires DesiredReady(group, nodes, gates) && InServiceIds(batch) == []
    ensures forall i :: i in group.instances && i.lifecycle == InService ==> i.id !in Ids(batch)
    ensures var left := Without(group.instances, Ids(batch));
      && |InServiceIds(left)| == group.desired
      && (AllCovered(left, nodes, gates) <==> CountedOnce(group, nodes, gates))
  {
    forall i | i in group.instances && i.lifecycle == InService
      ensures i.id !in Ids(batch)
    {
      InServiceOutside(group, batch, i);
    }
    InServiceWithout(group.instances, Ids(batch));
    GateMeansCovered(group, nodes, gates);
  }
}
