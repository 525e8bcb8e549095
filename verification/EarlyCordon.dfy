/** Cordoning or uncordoning a whole scaling group, and the round trip of the two. */
module EarlyCordon {
  import opened Common
  import opened Fleet
  import opened Cordon

  function NodeName(s: Snapshot, id: InstanceId): Option<string> {
    match SelectNodeByInstanceID(id, s.nodes)
    case Some(n) => Some(n.name)
    case None => None
  }

  /**
   * The instance's node when the pass looks at it at all: terminating instances never,
   * up-to-date ones not for cordoning.
   */
  function Considered(s: Snapshot, cordon: bool, i: Instance): Option<string> {
    if i.lifecycle.Leaving() || (cordon && !IsInstanceDrifted(s, i)) then None else NodeName(s, i.id)
  }

  /** Cordoning skips nodes already cordoned; uncordoning touches only nodes with our annotation. */
  predicate Due(cordon: bool, f: Flags) {
    if cordon then !f.cordoned else f.annotated
  }

  function OneStep(s: Snapshot, cordon: bool, i: Instance, m: map<string, Flags>): map<string, Flags> {
    var name := Considered(s, cordon, i);
    if name.Some? && name.value in m && Due(cordon, m[name.value]) then m[name.value := Flags(cordon, cordon)] else m
  }

  /** The server after a pass over the instances in which no call failed. */
  function Pass(s: Snapshot, cordon: bool, instances: seq<Instance>, nodes: map<string, Flags>): map<string, Flags> {
    if instances == [] then nodes else
      OneStep(s, cordon, instances[|instances| - 1], Pass(s, cordon, instances[..|instances| - 1], nodes))
  }

  // ----- the pass against a failing server -----

  type Cache = map<string, NodeObject>

  /** Node names are unique, and every known node is cached. */
  ghost predicate Cached(s: Snapshot, cache: Cache)
    reads cache.Values
  {
    && (forall a, b :: a in s.nodes && b in s.nodes && a.name == b.name ==> a == b)
    && (forall n :: n in s.nodes ==> n.name in cache)
    && (forall n :: n in cache ==> cache[n].name == n)
  }

  ghost predicate Agrees(api: ApiServer, cache: Cache, name: string)
    reads api, cache.Values
  {
    name in cache && name in api.nodes && cache[name].Value() == api.nodes[name]
  }

  lemma OtherName(s: Snapshot, cache: Cache, i: Instance, j: Instance)
    requires Cached(s, cache) && i.id != j.id
    ensures NodeName(s, i.id).Some? && NodeName(s, j.id).Some? ==> NodeName(s, i.id).value != NodeName(s, j.id).value
  {
  }

  /** One node of the pass: nothing when it is not due, else cordon and annotate, or undo both. */
  method ProcessNode(api: ApiServer, node: NodeObject, cordon: bool) returns (processed: nat, errors: nat)
    requires api.Sound() && node.name in api.nodes && node.Value() == api.nodes[node.name]
    modifies api, node`unschedulable
    ensures api.Sound() && api.Touched(node.name)
    ensures processed + errors == if Due(cordon, old(api.nodes)[node.name]) then 1 else 0
    ensures processed == 1 ==> api.nodes[node.name] == Flags(cordon, cordon)
    ensures processed + errors == 0 ==> api.nodes == old(api.nodes)
    ensures old(api.faults) + errors <= api.faults
    ensures api.faults == old(api.faults) ==> errors == 0
  {
    processed, errors := 0, 0;
    if cordon {
      if node.unschedulable {
        return;
      }
      var done := CordonAndAnnotateNode(api, node);
      if done { processed := 1; } else { errors := 1; }
    } else if node.annotated {
      var done := UncordonAndRemoveAnnotation(api, node);
      if done { processed := 1; } else { errors := 1; }
    }
  }

  /** From instance `k` on, the cached nodes still agree with the server. */
  ghost predicate AgreeFrom(api: ApiServer, cache: Cache, s: Snapshot, k: nat)
    reads api, cache.Values
  {
    forall j :: k <= j < |s.group.instances| && NodeName(s, s.group.instances[j].id).Some? ==>
      Agrees(api, cache, NodeName(s, s.group.instances[j].id).value)
  }

  /** The node of the instance, when the pass has something to do for it. */
  ghost function DueName(s: Snapshot, cordon: bool, i: Instance, nodes: map<string, Flags>): set<string> {
    var name := Considered(s, cordon, i);
    if name.Some? && name.value in nodes && Due(cordon, nodes[name.value]) then {name.value} else {}
  }

  /** The nodes a pass has something to do for. */
  ghost function DueNames(s: Snapshot, cordon: bool, instances: seq<Instance>, nodes: map<string, Flags>): set<string> {
    if instances == [] then {} else
      DueNames(s, cordon, instances[..|instances| - 1], nodes) + DueName(s, cordon, instances[|instances| - 1], nodes)
  }

  /** One round of the loop: the instance is skipped or its node processed; later nodes are left alone. */
  method ProcessInstance(api: ApiServer, s: Snapshot, cache: Cache, cordon: bool, k: nat)
    returns (processed: nat, errors: nat)
    requires api.Sound() && Cached(s, cache) && DistinctIds(s.group.instances)
    requires k < |s.group.instances| && AgreeFrom(api, cache, s, k)
    modifies api, cache.Values
    ensures api.Sound() && old(api.trail) <= api.trail && old(api.faults) + errors <= api.faults
    ensures api.nodes.Keys == old(api.nodes.Keys)
    ensures AgreeFrom(api, cache, s, k + 1)
    ensures var due := DueName(s, cordon, s.group.instances[k], old(api.nodes));
      && processed + errors == |due|
      && (forall n :: n in due && processed == 1 ==> api.nodes[n] == Flags(cordon, cordon))
      && (forall n :: n in api.nodes && n !in due ==> api.nodes[n] == old(api.nodes)[n])
    ensures api.faults == old(api.faults) ==> errors == 0
  {
    processed, errors := 0, 0;
    var name := Considered(s, cordon, s.group.instances[k]);
    if name.Some? {
      assert Agrees(api, cache, name.value);
      processed, errors := ProcessNode(api, cache[name.value], cordon);
      forall j | k + 1 <= j < |s.group.instances| && NodeName(s, s.group.instances[j].id).Some?
        ensures Agrees(api, cache, NodeName(s, s.group.instances[j].id).value)
      {
        OtherName(s, cache, s.group.instances[k], s.group.instances[j]);
        var other := NodeName(s, s.group.instances[j].id).value;
        assert old(Agrees(api, cache, other));
        assert cache[other] != cache[name.value];
      }
    }
  }

  /** What the first instances leave alone, a later instance finds as it was. */
  lemma {:induction false} DueElsewhere(s: Snapshot, cache: Cache, cordon: bool, k: nat, m: nat,
                                        nodes: map<string, Flags>)
    requires Cached(s, cache) && DistinctIds(s.group.instances) && m <= k < |s.group.instances|
    ensures NodeName(s, s.group.instances[k].id).Some? ==>
      NodeName(s, s.group.instances[k].id).value !in DueNames(s, cordon, s.group.instances[..m], nodes)
  {
    if m > 0 {
      DueElsewhere(s, cache, cordon, k, m - 1, nodes);
      assert s.group.instances[..m][..m - 1] == s.group.instances[..m - 1];
      OtherName(s, cache, s.group.instances[k], s.group.instances[m - 1]);
    }
  }

  /** The state of a pass: which due nodes were done, and that nothing else was touched. */
  ghost predicate Midway(cordon: bool, due: set<string>, done: set<string>, processed: nat, errors: nat,
                         start: map<string, Flags>, nodes: map<string, Flags>) {
    && nodes.Keys == start.Keys && due <= nodes.Keys
    && done <= due && |done| == processed && |due| == processed + errors
    && (forall n :: n in done ==> nodes[n] == Flags(cordon, cordon))
    && (forall n :: n in nodes && n !in due ==> nodes[n] == start[n])
  }

  /** One more instance, whose node the pass has not met before. */
  lemma MidwayNext(cordon: bool, due: set<string>, done: set<string>, processed: nat, errors: nat,
                   start: map<string, Flags>,
                   nodes: map<string, Flags>, own: set<string>, p: nat, e: nat, nodes': map<string, Flags>)
    requires Midway(cordon, due, done, processed, errors, start, nodes) && own !! due && |own| == p + e && p <= 1
    requires own <= nodes.Keys == nodes'.Keys && (forall n :: n in own && p == 1 ==> nodes'[n] == Flags(cordon, cordon))
    requires forall n :: n in nodes && n !in own ==> nodes'[n] == nodes[n]
    requires |own| <= 1
    ensures Midway(cordon, due + own, if p == 1 then done + own else done, processed + p, errors + e, start, nodes')
  {
    assert |due + own| == |due| + |own|;
    assert |done + own| == |done| + |own|;
  }

  /** What instance `k` finds due is what was due at the start, and was not due for an earlier one. */
  lemma OwnName(s: Snapshot, cache: Cache, cordon: bool, k: nat, start: map<string, Flags>, nodes: map<string, Flags>)
    requires Cached(s, cache) && DistinctIds(s.group.instances) && k < |s.group.instances| && nodes.Keys == start.Keys
    requires forall n :: n in nodes && n !in DueNames(s, cordon, s.group.instances[..k], start) ==> nodes[n] == start[n]
    ensures var own := DueName(s, cordon, s.group.instances[k], start);
      && own == DueName(s, cordon, s.group.instances[k], nodes)
      && own !! DueNames(s, cordon, s.group.instances[..k], start)
      && DueNames(s, cordon, s.group.instances[..k + 1], start) ==
         DueNames(s, cordon, s.group.instances[..k], start) + own
  {
    DueElsewhere(s, cache, cordon, k, k, start);
    assert s.group.instances[..k + 1][..k] == s.group.instances[..k];
  }

  ghost predicate MidPass(s: Snapshot, cordon: bool, k: nat, done: set<string>, processed: nat, errors: nat,
                          start: map<string, Flags>, nodes: map<string, Flags>)
    requires k <= |s.group.instances|
  {
    Midway(cordon, DueNames(s, cordon, s.group.instances[..k], start), done, processed, errors, start, nodes)
  }

  lemma MidPassNext(s: Snapshot, cache: Cache, cordon: bool, k: nat, done: set<string>, processed: nat, errors: nat,
                    start: map<string, Flags>, nodes: map<string, Flags>, p: nat, e: nat, nodes': map<string, Flags>)
    requires Cached(s, cache) && DistinctIds(s.group.instances) && k < |s.group.instances|
    requires MidPass(s, cordon, k, done, processed, errors, start, nodes) && nodes.Keys == nodes'.Keys
    requires var own := DueName(s, cordon, s.group.instances[k], nodes);
      && p + e == |own|
      && (forall n :: n in own && p == 1 ==> nodes'[n] == Flags(cordon, cordon))
      && (forall n :: n in nodes && n !in own ==> nodes'[n] == nodes[n])
    ensures var own := DueName(s, cordon, s.group.instances[k], start);
      MidPass(s, cordon, k + 1, if p == 1 then done + own else done, processed + p, errors + e, start, nodes')
  {
    var own := DueName(s, cordon, s.group.instances[k], nodes);
    OwnName(s, cache, cordon, k, start, nodes);
    MidwayNext(cordon, DueNames(s, cordon, s.group.instances[..k], start), done, processed, errors, start, nodes, own,
               p, e, nodes');
  }

  // ----- a pass without a failing call -----

  /** The server after a pass that succeeded for every due node is what the pass over the instances computes. */
  lemma {:induction false} PassIsAllDone(s: Snapshot, cache: Cache, cordon: bool, k: nat, nodes: map<string, Flags>)
    requires Cached(s, cache) && DistinctIds(s.group.instances) && k <= |s.group.instances|
    ensures var done := s.group.instances[..k];
      var due, m := DueNames(s, cordon, done, nodes), Pass(s, cordon, done, nodes);
      && m.Keys == nodes.Keys
      && forall n :: n in nodes ==> m[n] == if n in due then Flags(cordon, cordon) else nodes[n]
  {
    if k > 0 {
      assert s.group.instances[..k][..k - 1] == s.group.instances[..k - 1];
      PassIsAllDone(s, cache, cordon, k - 1, nodes);
      DueElsewhere(s, cache, cordon, k - 1, k - 1, nodes);
    }
  }

  /** With every due node done, the server is what the pass computes. */
  lemma AllDone(s: Snapshot, cache: Cache, cordon: bool, done: set<string>, processed: nat,
                start: map<string, Flags>, nodes: map<string, Flags>)
    requires Cached(s, cache) && DistinctIds(s.group.instances)
    requires MidPass(s, cordon, |s.group.instances|, done, processed, 0, start, nodes)
    ensures nodes == Pass(s, cordon, s.group.instances, start)
  {
    var all := s.group.instances;
    PassIsAllDone(s, cache, cordon, |all|, start);
    assert all[..|all|] == all;
    SubsetOfSameSize(done, DueNames(s, cordon, all[..|all|], start));
  }

  // ----- the whole pass -----

  /**
   * A whole pass: `done` are the nodes it succeeded for. It fails exactly when there was something to
   * do and none of it succeeded; what was not due is untouched; each error has a failing call; and
   * without a failing call the server is what the pass computes.
   */
  method CordonUncordonAllNodes(api: ApiServer, s: Snapshot, cache: Cache, cordon: bool)
    returns (ok: bool, processedCount: nat, errorCount: nat, ghost done: set<string>)
    requires api.Sound() && Cached(s, cache) && DistinctIds(s.group.instances)
    requires forall n :: n in cache ==> Agrees(api, cache, n)
    modifies api, cache.Values
    ensures api.Sound() && old(api.trail) <= api.trail
    ensures MidPass(s, cordon, |s.group.instances|, done, processedCount, errorCount, old(api.nodes), api.nodes)
    ensures ok <==> errorCount == 0 || done != {}
    ensures old(api.faults) + errorCount <= api.faults
    ensures api.faults == old(api.faults) ==> ok && api.nodes == Pass(s, cordon, s.group.instances, old(api.nodes))
  {
    processedCount, errorCount, done := 0, 0, {};
    for k := 0 to |s.group.instances|
      invariant api.Sound() && old(api.trail) <= api.trail && old(api.faults) + errorCount <= api.faults
      invariant AgreeFrom(api, cache, s, k)
      invariant MidPass(s, cordon, k, done, processedCount, errorCount, old(api.nodes), api.nodes)
      invariant api.faults == old(api.faults) ==> errorCount == 0
    {
      ghost var nodes := api.nodes;
      var processed, errors := ProcessInstance(api, s, cache, cordon, k);
      MidPassNext(s, cache, cordon, k, done, processedCount, errorCount, old(api.nodes), nodes, processed, errors,
                  api.nodes);
      done := if processed == 1 then done + DueName(s, cordon, s.group.instances[k], old(api.nodes)) else done;
      processedCount, errorCount := processedCount + processed, errorCount + errors;
    }
    ok := errorCount == 0 || processedCount > 0;
    if errorCount == 0 {
      AllDone(s, cache, cordon, done, processedCount, old(api.nodes), api.nodes);
    }
  }

  // ----- the round trip -----

  /** The same instances, with the same nodes, leaving or staying alike; their drift may differ. */
  ghost predicate SameFleet(a: Snapshot, b: Snapshot) {
    && |a.group.instances| == |b.group.instances|
    && forall k :: 0 <= k < |a.group.instances| ==>
         var i, j := a.group.instances[k], b.group.instances[k];
         && i.lifecycle.Leaving() == j.lifecycle.Leaving()
         && NodeName(a, i.id) == NodeName(b, j.id)
  }

  /** The names an uncordon pass over the instances visits. */
  ghost function Visited(s: Snapshot, instances: seq<Instance>): set<string> {
    set i | i in instances && Considered(s, false, i).Some? :: Considered(s, false, i).value
  }

  /** Apart from nodes we cordoned and annotated, all as at the start. */
  ghost predicate OursOrSame(start: map<string, Flags>, m: map<string, Flags>, ours: set<string>) {
    && m.Keys == start.Keys
    && forall n :: n in start ==> m[n] == start[n] || (!start[n].cordoned && m[n] == Flags(true, true) && n in ours)
  }

  lemma {:induction false} CordonPassMarks(p: Snapshot, k: nat, start: map<string, Flags>, m: map<string, Flags>,
                                           ours: set<string>)
    requires k <= |p.group.instances| && OursOrSame(start, m, ours)
    requires forall i :: i in p.group.instances && Considered(p, true, i).Some? ==> Considered(p, true, i).value in ours
    ensures OursOrSame(start, Pass(p, true, p.group.instances[..k], m), ours)
  {
    if k > 0 {
      CordonPassMarks(p, k - 1, start, m, ours);
      assert p.group.instances[..k][..k - 1] == p.group.instances[..k - 1];
      assert p.group.instances[k - 1] in p.group.instances;
    }
  }

  function CordonPasses(passes: seq<Snapshot>, nodes: map<string, Flags>): map<string, Flags> {
    if passes == [] then nodes else
      var p := passes[|passes| - 1];
      Pass(p, true, p.group.instances, CordonPasses(passes[..|passes| - 1], nodes))
  }

  lemma SameConsidered(p: Snapshot, u: Snapshot, i: Instance)
    requires SameFleet(p, u) && i in p.group.instances && Considered(p, true, i).Some?
    ensures Considered(p, true, i).value in Visited(u, u.group.instances)
  {
    var k :| 0 <= k < |p.group.instances| && p.group.instances[k] == i;
    var j := u.group.instances[k];
    assert j in u.group.instances && Considered(u, false, j) == Considered(p, true, i);
  }

  lemma {:induction false} CordonPassesMark(passes: seq<Snapshot>, u: Snapshot, start: map<string, Flags>)
    requires forall p :: p in passes ==> SameFleet(p, u)
    ensures OursOrSame(start, CordonPasses(passes, start), Visited(u, u.group.instances))
  {
    if passes != [] {
      var p := passes[|passes| - 1];
      CordonPassesMark(passes[..|passes| - 1], u, start);
      forall i | i in p.group.instances && Considered(p, true, i).Some?
        ensures Considered(p, true, i).value in Visited(u, u.group.instances)
      {
        SameConsidered(p, u, i);
      }
      CordonPassMarks(p, |p.group.instances|, start, CordonPasses(passes[..|passes| - 1], start),
                      Visited(u, u.group.instances));
      assert p.group.instances[..|p.group.instances|] == p.group.instances;
    }
  }

  lemma {:induction false} UncordonPassRestores(u: Snapshot, k: nat, start: map<string, Flags>, m: map<string, Flags>,
                                                ours: set<string>)
    requires k <= |u.group.instances| && OursOrSame(start, m, ours)
    requires forall n :: n in start ==> !start[n].annotated
    ensures OursOrSame(start, Pass(u, false, u.group.instances[..k], m), ours - Visited(u, u.group.instances[..k]))
  {
    if k > 0 {
      var i, init := u.group.instances[k - 1], u.group.instances[..k - 1];
      UncordonPassRestores(u, k - 1, start, m, ours);
      assert u.group.instances[..k] == init + [i];
      assert u.group.instances[..k][..k - 1] == init;
      UncordonOne(u, i, start, Pass(u, false, init, m), ours - Visited(u, init));
      assert ours - Visited(u, init) - VisitedOne(u, i) == ours - Visited(u, init + [i]);
    }
  }

  ghost function VisitedOne(s: Snapshot, i: Instance): set<string> {
    var name := Considered(s, false, i);
    if name.Some? then {name.value} else {}
  }

  lemma UncordonOne(u: Snapshot, i: Instance, start: map<string, Flags>, m: map<string, Flags>, ours: set<string>)
    requires OursOrSame(start, m, ours) && forall n :: n in start ==> !start[n].annotated
    ensures OursOrSame(start, OneStep(u, false, i, m), ours - VisitedOne(u, i))
  {
  }

  /**
   * From a cluster without our annotation, with no failing call: any number of cordon passes, each
   * with its own view of what is drifted, followed by one uncordon pass restores every node. In
   * particular nodes that an operator had cordoned stay cordoned.
   */
  lemma CordonRoundTrip(passes: seq<Snapshot>, u: Snapshot, start: map<string, Flags>)
    requires forall p :: p in passes ==> SameFleet(p, u)
    requires forall n :: n in start ==> !start[n].annotated
    ensures Pass(u, false, u.group.instances, CordonPasses(passes, start)) == start
  {
    var all := u.group.instances;
    CordonPassesMark(passes, u, start);
    UncordonPassRestores(u, |all|, start, CordonPasses(passes, start), Visited(u, all));
    assert all[..|all|] == all;
  }

  /** The node belongs to an instance that stays and does not run the current configuration. */
  ghost predicate Outdated(s: Snapshot, instances: seq<Instance>, name: string) {
    exists i, n :: i in instances && !i.lifecycle.Leaving() && IsInstanceDrifted(s, i)
                   && SelectNodeByInstanceID(i.id, s.nodes) == Some(n) && n.name == name
  }

  lemma OutdatedSnoc(s: Snapshot, init: seq<Instance>, last: Instance, name: string)
    ensures Outdated(s, init + [last], name) <==> Outdated(s, init, name) || Outdated(s, [last], name)
  {
    assert forall i :: i in init + [last] <==> i in init || i in [last];
  }

  /**
   * What a cordon pass does: the node of every drifted instance that stays is cordoned afterwards, with
   * our annotation unless it was cordoned before, and every other node is as it was.
   */
  lemma {:induction false} CordonPassExact(s: Snapshot, instances: seq<Instance>, nodes: map<string, Flags>,
                                           name: string)
    requires name in nodes
    ensures var m := Pass(s, true, instances, nodes);
      && name in m
      && m[name] == if Outdated(s, instances, name) && !nodes[name].cordoned then Flags(true, true) else nodes[name]
  {
    if instances == [] {
      assert !Outdated(s, [], name);
    } else {
      var init, last := instances[..|instances| - 1], instances[|instances| - 1];
      CordonPassExact(s, init, nodes, name);
      assert instances == init + [last];
      OutdatedSnoc(s, init, last, name);
      OutdatedOne(s, last, name);
      StepOn(s, true, last, Pass(s, true, init, nodes), name);
    }
  }

  /** One instance of a pass, seen from one node. */
  lemma StepOn(s: Snapshot, cordon: bool, i: Instance, m: map<string, Flags>, name: string)
    requires name in m
    ensures var m' := OneStep(s, cordon, i, m);
      && name in m'
      && m'[name] == if Considered(s, cordon, i) == Some(name) && Due(cordon, m[name]) then Flags(cordon, cordon)
                     else m[name]
  {
  }

  lemma OutdatedOne(s: Snapshot, i: Instance, name: string)
    ensures Outdated(s, [i], name) <==> Considered(s, true, i) == Some(name)
  {
    if Considered(s, true, i) == Some(name) {
      assert i in [i] && SelectNodeByInstanceID(i.id, s.nodes).value.name == name;
    }
  }

  /** The same for an uncordon pass: our nodes are freed wherever their instance stays, drifted or not. */
  ghost predicate Staying(s: Snapshot, instances: seq<Instance>, name: string) {
    exists i, n :: i in instances && !i.lifecycle.Leaving()
                   && SelectNodeByInstanceID(i.id, s.nodes) == Some(n) && n.name == name
  }

  lemma {:induction false} UncordonPassExact(s: Snapshot, instances: seq<Instance>, nodes: map<string, Flags>,
                                             name: string)
    requires name in nodes
    ensures var m := Pass(s, false, instances, nodes);
      && name in m
      && m[name] == if Staying(s, instances, name) && nodes[name].annotated then Flags(false, false) else nodes[name]
  {
    if instances == [] {
      assert !Staying(s, [], name);
    } else {
      var init, last := instances[..|instances| - 1], instances[|instances| - 1];
      UncordonPassExact(s, init, nodes, name);
      assert instances == init + [last];
      StayingSnoc(s, init, last, name);
      StayingOne(s, last, name);
      StepOn(s, false, last, Pass(s, false, init, nodes), name);
    }
  }

  lemma StayingSnoc(s: Snapshot, init: seq<Instance>, last: Instance, name: string)
    ensures Staying(s, init + [last], name) <==> Staying(s, init, name) || Staying(s, [last], name)
  {
    assert forall i :: i in init + [last] <==> i in init || i in [last];
  }

  lemma StayingOne(s: Snapshot, i: Instance, name: string)
    ensures Staying(s, [i], name) <==> Considered(s, false, i) == Some(name)
  {
    if Considered(s, false, i) == Some(name) {
      assert i in [i] && SelectNodeByInstanceID(i.id, s.nodes).value.name == name;
    }
  }
}
