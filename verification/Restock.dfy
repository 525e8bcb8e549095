/** What the environment may do for a group on standby: renew its nodes, refill it, put instances on standby. */
module Restock {
  import opened Common
  import opened Fleet
  import opened Readiness
  import opened Selection
  import opened Batch
  import opened Convergence
  import opened EagerRun

  // ----- nodes that open the gate -----

  type Labels = map<string, string>

  /** Some set of labels passes every gate. */
  ghost predicate Passes(labels: Labels, gates: Gates) {
    forall g :: g in gates ==> forall key :: key in g ==> if key in labels then labels[key] == g[key] else g[key] == ""
  }

  function UsableNode(id: InstanceId, created: int, labels: Labels): Node {
    Node(id, ['/'] + id, created, [Condition("Ready", "True")], labels)
  }

  lemma UsableNodeIs(id: InstanceId, created: int, labels: Labels, gates: Gates)
    requires '/' !in id && Passes(labels, gates)
    ensures GetNodeInstanceID(UsableNode(id, created, labels)) == id && Usable(UsableNode(id, created, labels), gates)
  {
    assert ['/'] + id == "" + ['/'] + id;
    LastTokenOfPath("", id);
    var n := UsableNode(id, created, labels);
    assert n.conditions[0] in n.conditions;
  }

  /** Every node is usable and no two carry one instance ID. */
  ghost predicate Stocked(nodes: seq<Node>, gates: Gates) {
    && (forall n :: n in nodes ==> Usable(n, gates))
    && forall i, j :: 0 <= i < j < |nodes| ==> GetNodeInstanceID(nodes[i]) != GetNodeInstanceID(nodes[j])
  }

  lemma {:induction false} ServingOnce(nodes: seq<Node>, inService: seq<InstanceId>, gates: Gates)
    requires Stocked(nodes, gates)
    ensures Distinct(ServingIds(nodes, inService, gates))
  {
    if nodes != [] {
      var init, last := nodes[..|nodes| - 1], nodes[|nodes| - 1];
      assert forall n :: n in init ==> n in nodes;
      ServingOnce(init, inService, gates);
      ServingMember(init, inService, gates, GetNodeInstanceID(last));
      forall n | n in init
        ensures GetNodeInstanceID(n) != GetNodeInstanceID(last)
      {
        var k :| 0 <= k < |init| && init[k] == n;
        assert nodes[k] == n;
      }
      DistinctSnoc(ServingIds(init, inService, gates), GetNodeInstanceID(last));
    }
  }

  /** With such nodes and a full group the gate is open. */
  lemma StockedOpens(c: Cloud, gates: Gates)
    requires Clean(c) && Stocked(c.snap.nodes, gates)
    requires |InServiceIds(c.snap.group.instances)| == c.snap.group.desired
    ensures DesiredReady(c.snap.group, c.snap.nodes, gates)
  {
    var group, nodes := c.snap.group, c.snap.nodes;
    forall id | id in InServiceIds(group.instances)
      ensures Covered(id, nodes, gates)
    {
      InServiceMember(group.instances, id);
      var i :| i in group.instances && i.id == id && i.lifecycle == InService;
      SelectsTheMember(group.instances, i);
      assert Candidate(c.snap, id);
      var n := SelectNodeByInstanceID(id, nodes).value;
      assert n in nodes && Usable(n, gates);
    }
    ServingOnce(nodes, InServiceIds(group.instances), gates);
    GateMeansCovered(group, nodes, gates);
  }

  lemma {:induction false} SelectNodeSnoc(id: InstanceId, nodes: seq<Node>, n: Node)
    ensures SelectNodeByInstanceID(id, nodes + [n]) ==
            if SelectNodeByInstanceID(id, nodes).Some? then SelectNodeByInstanceID(id, nodes)
            else if GetNodeInstanceID(n) == id then Some(n) else None
  {
    if nodes == [] {
      assert nodes + [n] == [n] && [n][1..] == [];
    } else {
      assert (nodes + [n])[1..] == nodes[1..] + [n];
      SelectNodeSnoc(id, nodes[1..], n);
    }
  }

  lemma {:induction false} SelectInstanceSnoc(id: InstanceId, instances: seq<Instance>, i: Instance)
    ensures SelectScalingGroupInstance(id, instances + [i]) ==
            if SelectScalingGroupInstance(id, instances).Some? then SelectScalingGroupInstance(id, instances)
            else if i.id == id then Some(i) else None
  {
    if instances == [] {
      assert instances + [i] == [i] && [i][1..] == [];
    } else {
      assert (instances + [i])[1..] == instances[1..] + [i];
      SelectInstanceSnoc(id, instances[1..], i);
    }
  }

  lemma SameMember(instances: seq<Instance>, i: Instance, j: Instance)
    requires DistinctIds(instances) && i in instances && j in instances && i.id == j.id
    ensures i == j
  {
    SelectsTheMember(instances, i);
    SelectsTheMember(instances, j);
  }

  // ----- renewing the nodes -----

  /** A usable node, of the age of the old one, for every instance that has a node. */
  ghost function Renewed(s: Snapshot, instances: seq<Instance>, labels: Labels): seq<Node> {
    if instances == [] then [] else
      var init, last := instances[..|instances| - 1], instances[|instances| - 1];
      var age := NodeAge(s, last.id);
      if age.None? then Renewed(s, init, labels)
      else Renewed(s, init, labels) + [UsableNode(last.id, age.value, labels)]
  }

  lemma IdsSnoc(instances: seq<Instance>)
    requires instances != []
    ensures Ids(instances) == Ids(instances[..|instances| - 1]) + {instances[|instances| - 1].id}
  {
    assert instances == instances[..|instances| - 1] + [instances[|instances| - 1]];
  }

  lemma PlainId(s: Snapshot, id: InstanceId)
    ensures NodeAge(s, id).Some? ==> '/' !in id
  {
  }

  lemma {:induction false} RenewedSelects(s: Snapshot, instances: seq<Instance>, labels: Labels, gates: Gates,
                                          id: InstanceId)
    requires DistinctIds(instances) && Passes(labels, gates)
    ensures SelectNodeByInstanceID(id, Renewed(s, instances, labels)) ==
            if id in Ids(instances) && NodeAge(s, id).Some? then Some(UsableNode(id, NodeAge(s, id).value, labels))
            else None
  {
    if instances != [] {
      var init, last := instances[..|instances| - 1], instances[|instances| - 1];
      IdsSnoc(instances);
      RenewedSelects(s, init, labels, gates, id);
      if NodeAge(s, last.id).Some? {
        PlainId(s, last.id);
        UsableNodeIs(last.id, NodeAge(s, last.id).value, labels, gates);
        SelectNodeSnoc(id, Renewed(s, init, labels), UsableNode(last.id, NodeAge(s, last.id).value, labels));
      }
    }
  }

  lemma StockedSnoc(nodes: seq<Node>, n: Node, gates: Gates)
    requires Stocked(nodes, gates) && Usable(n, gates) && SelectNodeByInstanceID(GetNodeInstanceID(n), nodes).None?
    ensures Stocked(nodes + [n], gates)
  {
    forall i | 0 <= i < |nodes|
      ensures GetNodeInstanceID(nodes[i]) != GetNodeInstanceID(n)
    {
      assert nodes[i] in nodes;
    }
  }

  lemma {:induction false} RenewedStocked(s: Snapshot, instances: seq<Instance>, labels: Labels, gates: Gates)
    requires DistinctIds(instances) && Passes(labels, gates)
    ensures Stocked(Renewed(s, instances, labels), gates)
  {
    if instances != [] {
      RenewedStocked(s, instances[..|instances| - 1], labels, gates);
      if NodeAge(s, instances[|instances| - 1].id).Some? {
        RenewedOneMore(s, instances, labels, gates);
      }
    }
  }

  lemma RenewedOneMore(s: Snapshot, instances: seq<Instance>, labels: Labels, gates: Gates)
    requires DistinctIds(instances) && Passes(labels, gates) && instances != []
    requires NodeAge(s, instances[|instances| - 1].id).Some?
    requires Stocked(Renewed(s, instances[..|instances| - 1], labels), gates)
    ensures Stocked(Renewed(s, instances, labels), gates)
  {
    var init, last := instances[..|instances| - 1], instances[|instances| - 1];
    PlainId(s, last.id);
    UsableNodeIs(last.id, NodeAge(s, last.id).value, labels, gates);
    NoNodeYet(s, instances, labels, gates);
    StockedSnoc(Renewed(s, init, labels), UsableNode(last.id, NodeAge(s, last.id).value, labels), gates);
  }

  lemma NoNodeYet(s: Snapshot, instances: seq<Instance>, labels: Labels, gates: Gates)
    requires DistinctIds(instances) && Passes(labels, gates) && instances != []
    ensures var init, last := instances[..|instances| - 1], instances[|instances| - 1];
      SelectNodeByInstanceID(last.id, Renewed(s, init, labels)).None?
  {
    var init, last := instances[..|instances| - 1], instances[|instances| - 1];
    assert instances == init + [last];
    NotAmong(init, last, instances);
    RenewedSelects(s, init, labels, gates, last.id);
  }

  lemma NotAmong(init: seq<Instance>, last: Instance, all: seq<Instance>)
    requires DistinctIds(all) && all == init + [last]
    ensures last.id !in Ids(init)
  {
    forall i | i in init
      ensures i.id != last.id
    {
      var k :| 0 <= k < |init| && init[k] == i;
      assert all[k].id != all[|init|].id;
    }
  }

  ghost function WithNewNodes(c: Cloud, labels: Labels): Cloud {
    c.(snap := c.snap.(nodes := Renewed(c.snap, c.snap.group.instances, labels)))
  }

  lemma NewNodesAge(c: Cloud, labels: Labels, gates: Gates, id: InstanceId)
    requires DistinctIds(c.snap.group.instances) && Passes(labels, gates) && id in Ids(c.snap.group.instances)
    ensures NodeAge(WithNewNodes(c, labels).snap, id) == NodeAge(c.snap, id)
  {
    RenewedSelects(c.snap, c.snap.group.instances, labels, gates, id);
  }

  lemma NewNodesCandidate(c: Cloud, labels: Labels, gates: Gates, id: InstanceId)
    requires Clean(c) && Passes(labels, gates) && Candidate(WithNewNodes(c, labels).snap, id)
    ensures Candidate(c.snap, id) && HasNode(WithNewNodes(c, labels).snap, id) && id in Ids(c.snap.group.instances)
  {
    assert Candidate(c.snap, id) && Member(c.snap, id).value in c.snap.group.instances;
    NewNodesAge(c, labels, gates, id);
    assert HasNode(c.snap, id);
  }

  lemma NewNodesRefill(c: Cloud, labels: Labels, gates: Gates, gone: set<InstanceId>)
    requires Clean(c) && Fits(c) && Passes(labels, gates)
    ensures StandsBy(gone, c, WithNewNodes(c, labels)) && Stocked(WithNewNodes(c, labels).snap.nodes, gates)
  {
    var c' := WithNewNodes(c, labels);
    RenewedStocked(c.snap, c.snap.group.instances, labels, gates);
    NewNodesBalanced(c, labels, gates, gone);
    NewNodesStaffed(c, labels, gates);
    RefillsWhen(gone, c, c');
    MembersStay(c, c', gone);
  }

  lemma NewNodesBalanced(c: Cloud, labels: Labels, gates: Gates, gone: set<InstanceId>)
    requires Clean(c) && Passes(labels, gates)
    ensures Balanced(gone, c, WithNewNodes(c, labels))
  {
    var c', all := WithNewNodes(c, labels), c.snap.group.instances;
    forall i | i in all
      ensures Survives(c.snap, i, c'.snap, i) && Accounted(gone, c.snap, c'.snap, i)
    {
      assert i.id in Ids(all);
      NewNodesAge(c, labels, gates, i.id);
    }
  }

  lemma NewNodesStaffed(c: Cloud, labels: Labels, gates: Gates)
    requires Clean(c) && Passes(labels, gates)
    ensures Staffed(c, WithNewNodes(c, labels)) && WellFormed(WithNewNodes(c, labels))
  {
    forall id | Candidate(WithNewNodes(c, labels).snap, id)
      ensures Candidate(c.snap, id) && HasNode(WithNewNodes(c, labels).snap, id) && id in Ids(c.snap.group.instances)
    {
      NewNodesCandidate(c, labels, gates, id);
    }
  }

  /** Every member of the new group is accounted for and listed, and every old one that is not gone survives. */
  ghost predicate Balanced(gone: set<InstanceId>, c: Cloud, c': Cloud) {
    && (forall j :: j in c'.snap.group.instances ==> j.id in c'.listing && Accounted(gone, c.snap, c'.snap, j))
    && (forall i :: i in c.snap.group.instances ==>
          exists j :: j in c'.snap.group.instances && Survives(c.snap, i, c'.snap, j))
  }

  /** Every candidate has a node, and whoever is tagged was a member before. */
  ghost predicate Staffed(c: Cloud, c': Cloud) {
    && (forall id :: Candidate(c'.snap, id) ==> HasNode(c'.snap, id))
    && (forall id :: Candidate(c'.snap, id) && id in c'.tags ==> id in Ids(c.snap.group.instances))
  }

  lemma RefillsWhen(gone: set<InstanceId>, c: Cloud, c': Cloud)
    requires SameTarget(c.snap, c'.snap) && WellFormed(c') && Balanced(gone, c, c') && Staffed(c, c')
    requires c'.tags == c.tags
    ensures Refills(gone, c, c')
  {
    forall id | id in c'.tags && Candidate(c'.snap, id)
      ensures id in Ids(c.snap.group.instances) && Marked(c.tags, id, c'.tags[id])
    {
    }
  }

  /** Nobody's state changes when the members are the same. */
  lemma MembersStay(c: Cloud, c': Cloud, gone: set<InstanceId>)
    requires DistinctIds(c.snap.group.instances) && Refills(gone, c, c') && Fits(c')
    requires forall j :: j in c'.snap.group.instances ==>
      j in c.snap.group.instances || j.id !in Ids(c.snap.group.instances)
    ensures StandsBy(gone, c, c')
  {
    forall i, j | i in c.snap.group.instances && j in c'.snap.group.instances && i.id == j.id && i.id !in gone
      ensures MayMove(i, j, Marked(c.tags, i.id, InProgress))
    {
      SameMember(c.snap.group.instances, i, j);
    }
  }

  // ----- one more instance -----

  function WantedTemplate(s: Snapshot): Option<TemplateRef> {
    if s.group.template.Some? then
      Some(s.group.template.value.(version := ResolveVersion(s.templates, s.group.template.value)))
    else if s.group.mixed.Some? then
      Some(s.group.mixed.value.(version := ResolveVersion(s.templates, s.group.mixed.value)))
    else None
  }

  /** An instance launched now. */
  function Newcomer(s: Snapshot, id: InstanceId): Instance {
    Instance(id, InService, "", s.group.launchConfig, WantedTemplate(s))
  }

  ghost function Joined(c: Cloud, id: InstanceId, labels: Labels): Cloud {
    var group := c.snap.group.(instances := c.snap.group.instances + [Newcomer(c.snap, id)]);
    var nodes := c.snap.nodes + [UsableNode(id, c.snap.created, labels)];
    Cloud(c.snap.(group := group, nodes := nodes), c.listing + [id], c.live + {id}, c.tags)
  }

  /** An ID that nothing in the cloud carries. */
  ghost predicate Free(c: Cloud, gone: set<InstanceId>, id: InstanceId) {
    && '/' !in id && id !in c.listing && id !in Ids(c.snap.group.instances) && id !in c.tags && id !in gone
    && SelectNodeByInstanceID(id, c.snap.nodes).None?
  }

  lemma SomeFree(c: Cloud, gone: set<InstanceId>) returns (id: InstanceId)
    ensures Free(c, gone, id)
  {
    var onNodes := set n | n in c.snap.nodes :: GetNodeInstanceID(n);
    id := Unused(Elems(c.listing) + Ids(c.snap.group.instances) + c.tags.Keys + gone + onNodes);
    assert forall n :: n in c.snap.nodes ==> GetNodeInstanceID(n) in onNodes;
  }

  lemma JoinedMember(c: Cloud, id: InstanceId, labels: Labels, x: InstanceId)
    requires id !in Ids(c.snap.group.instances)
    ensures Member(Joined(c, id, labels).snap, x) == if x == id then Some(Newcomer(c.snap, id)) else Member(c.snap, x)
  {
    SelectInstanceSnoc(x, c.snap.group.instances, Newcomer(c.snap, id));
    if Member(c.snap, x).Some? {
      assert Member(c.snap, x).value in c.snap.group.instances;
    }
  }

  lemma JoinedAge(c: Cloud, id: InstanceId, labels: Labels, gates: Gates, gone: set<InstanceId>, x: InstanceId)
    requires Free(c, gone, id) && Passes(labels, gates)
    ensures NodeAge(Joined(c, id, labels).snap, x) == if x == id then Some(c.snap.created) else NodeAge(c.snap, x)
  {
    UsableNodeIs(id, c.snap.created, labels, gates);
    SelectNodeSnoc(x, c.snap.nodes, UsableNode(id, c.snap.created, labels));
  }

  /** It runs what the group launches, on a node as young as the upgrade. */
  lemma NewcomerKept(c: Cloud, id: InstanceId, labels: Labels, gates: Gates, gone: set<InstanceId>)
    requires Free(c, gone, id) && Passes(labels, gates)
    ensures !IsInstanceDrifted(Joined(c, id, labels).snap, Newcomer(c.snap, id))
  {
    var s, j := Joined(c, id, labels).snap, Newcomer(c.snap, id);
    JoinedAge(c, id, labels, gates, gone, id);
    if s.group.template.Some? {
      ResolvesToWanted(s.templates, s.group.template.value, ResolveVersion(s.templates, s.group.template.value));
    } else if s.group.mixed.Some? {
      ResolvesToWanted(s.templates, s.group.mixed.value, ResolveVersion(s.templates, s.group.mixed.value));
    }
    StayingInstanceKept(s, j);
  }

  lemma JoinedWellFormed(c: Cloud, id: InstanceId, labels: Labels, gates: Gates, gone: set<InstanceId>)
    requires Clean(c) && Free(c, gone, id) && Passes(labels, gates)
    ensures WellFormed(Joined(c, id, labels))
    ensures forall x :: Candidate(Joined(c, id, labels).snap, x) ==>
      HasNode(Joined(c, id, labels).snap, x) && (x == id || x in Ids(c.snap.group.instances))
  {
    var c' := Joined(c, id, labels);
    DistinctSnoc(c.listing, id);
    forall x | Candidate(c'.snap, x)
      ensures x == id || (Candidate(c.snap, x) && x in Ids(c.snap.group.instances))
      ensures HasNode(c'.snap, x) && (x in c'.listing ==> x in c'.live)
    {
      JoinedMember(c, id, labels, x);
      JoinedAge(c, id, labels, gates, gone, x);
      if x != id {
        assert Candidate(c.snap, x) && Member(c.snap, x).value in c.snap.group.instances;
        assert HasNode(c.snap, x);
      }
    }
    DistinctIdsSnoc(c.snap.group.instances, Newcomer(c.snap, id));
  }

  lemma DistinctIdsSnoc(instances: seq<Instance>, i: Instance)
    requires DistinctIds(instances) && i.id !in Ids(instances)
    ensures DistinctIds(instances + [i])
  {
    forall k | 0 <= k < |instances|
      ensures instances[k].id != i.id
    {
      assert instances[k] in instances;
    }
  }

  lemma JoinedAccounts(c: Cloud, id: InstanceId, labels: Labels, gates: Gates, gone: set<InstanceId>, j: Instance)
    requires Clean(c) && Free(c, gone, id) && Passes(labels, gates) && j in Joined(c, id, labels).snap.group.instances
    ensures Accounted(gone, c.snap, Joined(c, id, labels).snap, j) && j.id in Joined(c, id, labels).listing
    ensures j in c.snap.group.instances || j == Newcomer(c.snap, id)
  {
    if j in c.snap.group.instances {
      assert j.id in Ids(c.snap.group.instances);
      JoinedAge(c, id, labels, gates, gone, j.id);
      assert Survives(c.snap, j, Joined(c, id, labels).snap, j);
    } else {
      NewcomerKept(c, id, labels, gates, gone);
    }
  }

  lemma JoinedRefills(c: Cloud, id: InstanceId, labels: Labels, gates: Gates, gone: set<InstanceId>)
    requires Clean(c) && Free(c, gone, id) && Passes(labels, gates)
    requires |InServiceIds(c.snap.group.instances)| < c.snap.group.desired
    ensures StandsBy(gone, c, Joined(c, id, labels))
    ensures |InServiceIds(Joined(c, id, labels).snap.group.instances)| == |InServiceIds(c.snap.group.instances)| + 1
  {
    var c' := Joined(c, id, labels);
    JoinedWellFormed(c, id, labels, gates, gone);
    JoinedBalanced(c, id, labels, gates, gone);
    assert Staffed(c, c');
    RefillsWhen(gone, c, c');
    InServiceSnoc(c.snap.group.instances, Newcomer(c.snap, id));
    MembersStay(c, c', gone);
  }

  lemma JoinedBalanced(c: Cloud, id: InstanceId, labels: Labels, gates: Gates, gone: set<InstanceId>)
    requires Clean(c) && Free(c, gone, id) && Passes(labels, gates)
    ensures Balanced(gone, c, Joined(c, id, labels))
    ensures forall j :: j in Joined(c, id, labels).snap.group.instances ==>
      j in c.snap.group.instances || j.id !in Ids(c.snap.group.instances)
  {
    var c', all := Joined(c, id, labels), c.snap.group.instances;
    forall j | j in c'.snap.group.instances
      ensures j.id in c'.listing && Accounted(gone, c.snap, c'.snap, j)
      ensures j in all || j == Newcomer(c.snap, id)
    {
      JoinedAccounts(c, id, labels, gates, gone, j);
    }
    forall i | i in all
      ensures exists j :: j in c'.snap.group.instances && Survives(c.snap, i, c'.snap, j)
    {
      assert i.id in Ids(all);
      JoinedAge(c, id, labels, gates, gone, i.id);
      assert i in c'.snap.group.instances && Survives(c.snap, i, c'.snap, i);
    }
  }

  lemma JoinedStocked(c: Cloud, id: InstanceId, labels: Labels, gates: Gates, gone: set<InstanceId>)
    requires Free(c, gone, id) && Passes(labels, gates) && Stocked(c.snap.nodes, gates)
    ensures Stocked(Joined(c, id, labels).snap.nodes, gates)
  {
    UsableNodeIs(id, c.snap.created, labels, gates);
    StockedSnoc(c.snap.nodes, UsableNode(id, c.snap.created, labels), gates);
  }

  // ----- on standby -----

  function StandsAside(i: Instance, tags: Tags): Instance {
    if i.lifecycle == InService && Marked(tags, i.id, InProgress) then i.(lifecycle := Standby) else i
  }

  function Aside(instances: seq<Instance>, tags: Tags): seq<Instance> {
    seq(|instances|, k requires 0 <= k < |instances| => StandsAside(instances[k], tags))
  }

  /** The cloud once every tagged instance in service has gone on standby. */
  ghost function StoodBy(c: Cloud): Cloud {
    c.(snap := c.snap.(group := c.snap.group.(instances := Aside(c.snap.group.instances, c.tags))))
  }

  lemma AsideMember(instances: seq<Instance>, tags: Tags, j: Instance)
    ensures j in Aside(instances, tags) <==> exists i :: i in instances && j == StandsAside(i, tags)
  {
    var aside := Aside(instances, tags);
    if i :| i in instances && j == StandsAside(i, tags) {
      var k :| 0 <= k < |instances| && instances[k] == i;
      assert aside[k] == j;
    }
    if j in aside {
      var k :| 0 <= k < |aside| && aside[k] == j;
      assert instances[k] in instances;
    }
  }

  lemma StoodByMember(c: Cloud, id: InstanceId)
    requires DistinctIds(c.snap.group.instances)
    ensures Member(StoodBy(c).snap, id).Some? <==> Member(c.snap, id).Some?
    ensures Member(c.snap, id).Some? ==>
      Member(StoodBy(c).snap, id).value == StandsAside(Member(c.snap, id).value, c.tags)
  {
    var all, aside := c.snap.group.instances, StoodBy(c).snap.group.instances;
    if Member(c.snap, id).Some? {
      var i := Member(c.snap, id).value;
      AsideMember(all, c.tags, StandsAside(i, c.tags));
      assert DistinctIds(aside);
      SelectsTheMember(aside, StandsAside(i, c.tags));
    }
    if Member(StoodBy(c).snap, id).Some? {
      AsideMember(all, c.tags, Member(StoodBy(c).snap, id).value);
    }
  }

  lemma {:induction false} AsideServes(instances: seq<Instance>, tags: Tags)
    ensures |InServiceIds(Aside(instances, tags))| <= |InServiceIds(instances)|
  {
    if instances != [] {
      var init, last := instances[..|instances| - 1], instances[|instances| - 1];
      AsideServes(init, tags);
      assert Aside(instances, tags) == Aside(init, tags) + [StandsAside(last, tags)];
      InServiceSnoc(Aside(init, tags), StandsAside(last, tags));
    }
  }

  lemma StoodByCandidate(c: Cloud, id: InstanceId)
    requires Clean(c) && Candidate(StoodBy(c).snap, id)
    ensures Candidate(c.snap, id) && HasNode(StoodBy(c).snap, id) && id in Ids(c.snap.group.instances)
  {
    StoodByMember(c, id);
    assert Candidate(c.snap, id) && Member(c.snap, id).value in c.snap.group.instances;
    assert HasNode(c.snap, id);
  }

  lemma StoodByWellFormed(c: Cloud)
    requires Clean(c)
    ensures WellFormed(StoodBy(c))
    ensures forall id :: Candidate(StoodBy(c).snap, id) ==>
      HasNode(StoodBy(c).snap, id) && id in Ids(c.snap.group.instances)
  {
    forall id | Candidate(StoodBy(c).snap, id)
      ensures Candidate(c.snap, id) && HasNode(StoodBy(c).snap, id) && id in Ids(c.snap.group.instances)
    {
      StoodByCandidate(c, id);
    }
    assert DistinctIds(StoodBy(c).snap.group.instances);
  }

  lemma StoodByAccounts(c: Cloud, gone: set<InstanceId>, j: Instance)
    requires Clean(c) && j in StoodBy(c).snap.group.instances
    ensures Accounted(gone, c.snap, StoodBy(c).snap, j) && j.id in c.listing
  {
    AsideMember(c.snap.group.instances, c.tags, j);
    var i :| i in c.snap.group.instances && j == StandsAside(i, c.tags);
    AsideSurvives(c, i);
  }

  lemma StoodByRefills(c: Cloud, gone: set<InstanceId>)
    requires Clean(c) && Fits(c)
    ensures StandsBy(gone, c, StoodBy(c))
  {
    var c' := StoodBy(c);
    StoodByWellFormed(c);
    StoodByBalanced(c, gone);
    assert Staffed(c, c');
    RefillsWhen(gone, c, c');
    AsideServes(c.snap.group.instances, c.tags);
    StoodByMoves(c);
  }

  lemma StoodByBalanced(c: Cloud, gone: set<InstanceId>)
    requires Clean(c)
    ensures Balanced(gone, c, StoodBy(c))
  {
    var c', all := StoodBy(c), c.snap.group.instances;
    forall j | j in c'.snap.group.instances
      ensures j.id in c'.listing && Accounted(gone, c.snap, c'.snap, j)
    {
      StoodByAccounts(c, gone, j);
    }
    forall i | i in all
      ensures exists j :: j in c'.snap.group.instances && Survives(c.snap, i, c'.snap, j)
    {
      AsideMember(all, c.tags, StandsAside(i, c.tags));
      AsideSurvives(c, i);
    }
  }

  lemma AsideSurvives(c: Cloud, i: Instance)
    ensures Survives(c.snap, i, StoodBy(c).snap, StandsAside(i, c.tags))
  {
  }

  lemma StoodByMoves(c: Cloud)
    requires DistinctIds(c.snap.group.instances)
    ensures forall i, j :: i in c.snap.group.instances && j in StoodBy(c).snap.group.instances && i.id == j.id ==>
      MayMove(i, j, Marked(c.tags, i.id, InProgress))
  {
    var all := c.snap.group.instances;
    forall i, j | i in all && j in StoodBy(c).snap.group.instances && i.id == j.id
      ensures MayMove(i, j, Marked(c.tags, i.id, InProgress))
    {
      AsideMember(all, c.tags, j);
      var i' :| i' in all && j == StandsAside(i', c.tags);
      SameMember(all, i, i');
    }
  }
}
