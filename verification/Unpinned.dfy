/**
 * Runs that hand an instance to termination that no goroutine drained: a batch of the uniform strategy
 * that is not level, and goroutines left over from an earlier resource of the same name.
 */
module Unpinned {
  import opened Common
  import opened BatchSize
  import opened Fleet
  import opened ZoneOrder
  import opened Readiness
  import opened Selection
  import opened Batch
  import opened Stability
  import opened Rotation
  import opened QuietRun
  import opened Continuation

  /** The terminate loop has come to an instance that no goroutine was started for. */
  ghost predicate Undrained(s: State, id: InstanceId) {
    && s.ctl.Terminating? && s.ctl.next < |s.ctl.batch| && s.ctl.batch[s.ctl.next].id == id
    && HasNode(s.ctl.seen, id)
    && forall w :: w in s.workers ==> w.id != id
  }

  /** The terminate loop has a batch of which some instance with a node has no goroutine. */
  ghost predicate Uncovered(s: State) {
    s.ctl.Terminating? && !CoveredBy(s.ctl.seen, s.ctl.batch, s.workers)
  }

  // ----- goroutines left over -----

  /**
   * After a reconcile and before another one or a restart: the goroutines are the same, the
   * batch is the one selected.
   */
  ghost predicate InReconcile(s1: State, s: State) {
    && SameIds(s.workers, s1.workers) && Counted(s)
    && (!s.ctl.Idle? ==> !s1.ctl.Idle? && s.ctl.batch == s1.ctl.batch && s.ctl.seen == s1.ctl.seen)
    && (!NoneBlocked(s1.workers) && !s.ctl.Idle? ==> !NoneBlocked(s.workers))
  }

  lemma StaysBlocked(ws: seq<Worker>, i: nat, w: Worker)
    requires i < |ws| && !NoneBlocked(ws) && !ws[i].pc.Sending()
    ensures !NoneBlocked(ws[i := w])
  {
    var v :| v in ws && v.pc.Sending();
    var j :| 0 <= j < |ws| && ws[j] == v;
    assert ws[i := w][j] == v;
  }

  lemma InReconcileStep(up: Upgrade, s1: State, s: State, step: Step)
    requires InReconcile(s1, s) && Enabled(s, step) && Allowed(Within, up, s, step)
    ensures InReconcile(s1, Apply(up, s, step))
  {
    CountedStep(up, s, step);
    match step
    case Work(i, ok, tagWorks) =>
      var w := Advance(s.workers[i], ok, IgnoresDrainFailures(up));
      if !NoneBlocked(s.workers) {
        StaysBlocked(s.workers, i, w);
      }
    case _ =>
  }

  lemma {:induction false} InReconcileAlong(up: Upgrade, trace: seq<State>, steps: seq<Step>, n: nat)
    requires IsContinuation(Within, up, trace, steps) && InReconcile(trace[0], trace[0]) && n < |trace|
    ensures InReconcile(trace[0], trace[n])
  {
    if n > 0 {
      InReconcileAlong(up, trace, steps, n - 1);
      InReconcileStep(up, trace[0], trace[n - 1], steps[n - 1]);
    }
  }

  lemma BlockedIsActive(ws: seq<Worker>)
    requires !NoneBlocked(ws)
    ensures Active(ws) > 0
  {
    var v :| v in ws && v.pc.Sending();
    ActiveZero(ws);
  }

  /** What a state reached within the reconcile says about its beginning. */
  lemma UncoveredMeans(up: Upgrade, s1: State, s': State)
    requires Leads(Within, up, s1, s') && Counted(s1) && Uncovered(s')
    ensures !s1.ctl.Idle? && NoneBlocked(s1.workers) && !CoveredBy(s1.ctl.seen, s1.ctl.batch, s1.workers)
  {
    var trace: seq<State>, steps: seq<Step> :|
      IsContinuation(Within, up, trace, steps) && trace[0] == s1 && trace[|steps|] == s';
    InReconcileAlong(up, trace, steps, |steps|);
    SameWorkerIds(s'.workers, s1.workers);
    if !NoneBlocked(s1.workers) {
      BlockedIsActive(s'.workers);
    }
  }

  /**
   * The first reconcile of a resource, whatever goroutines of an earlier resource of the name are left:
   * it may go on to terminate an instance that no goroutine was started for, exactly when it gets as
   * far as draining, goroutines are running and none of them is blocked, and some instance of its batch
   * that has a node is not one of theirs.
   */
  lemma LeftOverIff(up: Upgrade, s: State, ch: Choice)
    requires NewResource(s) && Enabled(s, Reconcile(ch))
    ensures (exists s' :: Leads(Within, up, Apply(up, s, Reconcile(ch)), s') && Uncovered(s')) <==>
      && Decide(up, s, ch) == Proceed && s.group > 0 && NoneBlocked(s.workers)
      && !CoveredBy(s.cloud.snap, ch.batch, s.workers)
  {
    var s1 := Begin(up, s, ch);
    CountedStep(up, s, Reconcile(ch));
    BeginShape(up, s, ch);
    SpawnCovers(s.cloud.snap, ch.batch);
    WaitsForBatch(up, s, ch);
    if s' :| Leads(Within, up, s1, s') && Uncovered(s') {
      UncoveredMeans(up, s1, s');
    }
    if && Decide(up, s, ch) == Proceed && s.group > 0 && NoneBlocked(s.workers)
       && !CoveredBy(s.cloud.snap, ch.batch, s.workers) {
      LeadsNowhere(Within, up, s1);
      var s' := OthersFinish(Within, up, s1, s1);
      assert Uncovered(s');
    }
  }

  lemma WaitsForBatch(up: Upgrade, s: State, ch: Choice)
    requires s.ctl.Idle?
    ensures Decide(up, s, ch) == Proceed ==>
      Begin(up, s, ch).ctl == Controller.Waiting(ch.batch, s.cloud.snap, ch.listed)
  {
  }

  // ----- two targets in two zones -----

  lemma PairParts(a: Instance, b: Instance, z: string)
    requires a.zone != b.zone
    ensures ZonePart([a], z) == (if a.zone == z then [a] else [])
    ensures ZonePart([a, b], z) == (if a.zone == z then [a] else if b.zone == z then [b] else [])
  {
    assert [a][..0] == [];
    assert [a, b][..1] == [a];
  }

  /** Two targets in two zones may be ordered either way. */
  lemma PairOrder(a: Instance, b: Instance, first: Instance, second: Instance)
    requires a.zone != b.zone && ((first == a && second == b) || (first == b && second == a))
    ensures IsZoneOrder([a, b], [first, second])
  {
    var t, o := [a, b], [first, second];
    forall z
      ensures ZonePart(t, z) == Reverse(ZonePart(o, z)) && |ZonePart(o, z)| <= 1 && |ZonePart([first], z)| <= 1
    {
      PairParts(a, b, z);
      PairParts(first, second, z);
    }
    forall n | 0 <= n <= |o|
      ensures Fair(t, o[..n])
    {
      assert o[..0] == [] && o[..1] == [first] && o[..2] == o;
    }
  }

  /**
   * A group at capacity one whose two members are outdated, in different zones, untagged, in
   * standby, with a node each.
   */
  function StandbyPair(a: InstanceId, b: InstanceId): Cloud {
    var i := Instance(a, Standby, "x", None, None);
    var j := Instance(b, Standby, "y", None, None);
    var g := Group("g", 1, [i, j], Some("config"), None, None);
    Cloud(Snapshot(g, [], [ReadyNode("m", a), ReadyNode("n", b)], false, 0), [a, b], {a, b}, map[])
  }

  lemma NothingTagged(c: Cloud, t: Tag)
    requires c.tags == map[]
    ensures TaggedListing(c, t) == []
  {
    var marked := set id | id in c.listing && id in c.live && Marked(c.tags, id, t);
    assert marked == {};
    PickEmpty(c.listing, marked);
  }

  lemma StandbyPairMembers(a: InstanceId, b: InstanceId)
    requires a != b
    ensures var c := StandbyPair(a, b);
      && Member(c.snap, a) == Some(c.snap.group.instances[0])
      && Member(c.snap, b) == Some(c.snap.group.instances[1])
      && IsInstanceDrifted(c.snap, c.snap.group.instances[0]) && IsInstanceDrifted(c.snap, c.snap.group.instances[1])
  {
    var instances := StandbyPair(a, b).snap.group.instances;
    assert instances[1..] == [instances[1]];
  }

  lemma StandbyPairNodes(a: InstanceId, b: InstanceId)
    requires '/' !in a && '/' !in b
    ensures HasNode(StandbyPair(a, b).snap, a) && HasNode(StandbyPair(a, b).snap, b)
  {
    var nodes := StandbyPair(a, b).snap.nodes;
    ReadyNodeId("m", a);
    ReadyNodeId("n", b);
    assert nodes[0] in nodes && nodes[1] in nodes;
  }

  lemma PickBoth<T>(a: T, b: T)
    ensures Pick([a, b], {a, b}) == [a, b]
  {
    PickAll([a, b], {a, b});
  }

  lemma StandbyPairIds(a: InstanceId, b: InstanceId)
    requires a != b
    ensures var c := StandbyPair(a, b);
      WellFormed(c) && InProgressIds(c) == [] && UnprocessedIds(c, {}) == [a, b]
  {
    var c := StandbyPair(a, b);
    StandbyPairMembers(a, b);
    assert OwnedIds(c) == {};
    assert FreshIds(c, {}) == {a, b};
    PickBoth(a, b);
    PickEmpty(c.listing, OwnedIds(c));
  }

  lemma StandbyPairPools(a: InstanceId, b: InstanceId)
    requires a != b
    ensures var c := StandbyPair(a, b);
      WellFormed(c) && InProgressTargets(c) == [] && FailedDrains(c) == {} && CleanTags(c) == c.tags
      && UnprocessedTargets(c, {}) == c.snap.group.instances
  {
    var c := StandbyPair(a, b);
    StandbyPairIds(a, b);
    PoolsAre(c, {});
    StandbyPairMembers(a, b);
    NothingTagged(c, FailedDrain);
    assert CleanTags(c) == map[];
  }

  /** Two successive selections of the uniform strategy may return either instance, from an unchanged cloud. */
  lemma EitherBatch(st: Accepted, a: InstanceId, b: InstanceId)
    requires a != b && KindOf(Defaulted(st).kind) == Uniform
    ensures var c := StandbyPair(a, b);
      var i, j := c.snap.group.instances[0], c.snap.group.instances[1];
      IsBatch(st, c, [i]) && IsBatch(st, c, [j]) && Retag(c, {}) == c
  {
    var c := StandbyPair(a, b);
    StandbyPairPools(a, b);
    var i, j := c.snap.group.instances[0], c.snap.group.instances[1];
    assert i.zone[0] != j.zone[0];
    PairOrder(i, j, i, j);
    PairOrder(i, j, j, i);
    assert BatchLimit(st, 1) == 1;
    FirstOf(i, j);
    FirstOf(j, i);
  }

  lemma FirstOf(i: Instance, j: Instance)
    ensures Take([] + [i, j], 1) == [i]
  {
  }

  // ----- the run -----

  /** A reconcile in which every call works and the given instance is selected. */
  function Selects(i: Instance): Choice {
    Choice(true, [i], map[], true, 0, true, [])
  }

  ghost predicate FirstState(s: State, a: InstanceId, b: InstanceId) {
    NewResource(s) && s.group == 0 && s.workers == [] && s.cloud == StandbyPair(a, b)
  }

  /** The reconcile passes on the one instance, which has a node. */
  ghost predicate Passes(up: Upgrade, s: State, ch: Choice, j: Instance) {
    && SelectsAndTags(up, s, ch) && FromGroup(s.cloud.snap, ch.batch) && Decide(up, s, ch) == Proceed
    && ch.batch == [j] && HasNode(s.cloud.snap, j.id)
  }

  /** In lazy mode either instance may be passed on: being in standby, neither is tagged. */
  lemma EitherPasses(up: Upgrade, s: State, a: InstanceId, b: InstanceId, i: Instance)
    requires a != b && '/' !in a && '/' !in b
    requires KindOf(Defaulted(up.strategy).kind) == Uniform && UpgradeMode(up) == Lazy
    requires s.cloud == StandbyPair(a, b) && s.lastTermination.None? && s.lastDrain.None?
    requires i in s.cloud.snap.group.instances
    ensures Passes(up, s, Selects(i), i)
  {
    var instances := s.cloud.snap.group.instances;
    assert i == instances[0] || i == instances[1];
    EitherBatch(up.strategy, a, b);
    StandbyPairMembers(a, b);
    StandbyPairNodes(a, b);
    assert instances[0].id in DriftedIds(s.cloud.snap);
    NothingToTag(up, i);
    GoesOn(up, s, i);
  }

  lemma NothingToTag(up: Upgrade, i: Instance)
    requires i.lifecycle == Standby
    ensures TagTargets(up, Selects(i)) == {}
  {
    assert [i][..0] == [];
    assert InServiceIds([i]) == [];
  }

  lemma GoesOn(up: Upgrade, s: State, i: Instance)
    requires UpgradeMode(up) == Lazy && s.lastTermination.None? && s.lastDrain.None? && DriftedIds(s.cloud.snap) != {}
    ensures Decide(up, s, Selects(i)) == Proceed
  {
  }

  /**
   * A lazy upgrade of such a group under the uniform strategy: the first instance is being drained,
   * the reconcile times out, the next one selects the other instance, and when the drain is done the
   * terminate loop comes to that one, for which no goroutine was started.
   */
  lemma UnheldBatchMoves(up: Upgrade, s: State, a: InstanceId, b: InstanceId)
    requires a != b && '/' !in a && '/' !in b
    requires KindOf(Defaulted(up.strategy).kind) == Uniform && UpgradeMode(up) == Lazy && FirstState(s, a, b)
    ensures Initial(s) && WellFormed(s.cloud) && exists s' :: Leads(Own, up, s, s') && Undrained(s', b)
  {
    var j := s.cloud.snap.group.instances[1];
    StandbyPairIds(a, b);
    var s2 := DrainTimesOut(up, s, a, b);
    EitherPasses(up, s2, a, b, j);
    OneRuns(s2.workers, a);
    var s3 := JoinsRound(up, s2, Selects(j), j);
    LeadsOn(Own, up, s, s2, Reconcile(Selects(j)));
    var s' := OthersFinish(Own, up, s, s3);
    assert forall w :: w in s'.workers ==> w.id in WorkerIds(s'.workers);
    assert WorkerIds(s'.workers) == {a};
  }

  lemma JoinsRound(up: Upgrade, s: State, ch: Choice, j: Instance) returns (s1: State)
    requires s.ctl.Idle? && !s.status.Finite() && s.group > 0 && Passes(up, s, ch, j)
    ensures Enabled(s, Reconcile(ch)) && Allowed(Own, up, s, Reconcile(ch)) && s1 == Apply(up, s, Reconcile(ch))
    ensures s1.workers == s.workers && s1.group == s.group
    ensures s1.ctl == Controller.Waiting([j], s.cloud.snap, ch.listed)
  {
    s1 := Begin(up, s, ch);
    BeginInRound(up, s, ch);
    WaitsForBatch(up, s, ch);
  }

  lemma OneRuns(ws: seq<Worker>, id: InstanceId)
    requires ws == [Worker(id, PreDrain, false, false)]
    ensures Active(ws) == 1 && NoneBlocked(ws) && WorkerIds(ws) == {id}
  {
    assert ws[1..] == [];
    assert ws[0] in ws;
  }

  lemma DrainTimesOut(up: Upgrade, s: State, a: InstanceId, b: InstanceId) returns (s2: State)
    requires a != b && '/' !in a && '/' !in b
    requires KindOf(Defaulted(up.strategy).kind) == Uniform && UpgradeMode(up) == Lazy && FirstState(s, a, b)
    ensures Leads(Own, up, s, s2) && s2.ctl.Idle? && !s2.status.Finite() && s2.cloud == s.cloud
    ensures s2.workers == [Worker(a, PreDrain, false, false)] && s2.group == 1
    ensures s2.lastTermination.None? && s2.lastDrain.None?
  {
    var i := s.cloud.snap.group.instances[0];
    EitherPasses(up, s, a, b, i);
    var s1 := StartsRound(up, s, i);
    LeadsNowhere(Own, up, s);
    LeadsOn(Own, up, s, s, Reconcile(Selects(i)));
    s2 := s1.(ctl := Idle);
    LeadsOn(Own, up, s, s1, TimedOut);
  }

  lemma StartsRound(up: Upgrade, s: State, i: Instance) returns (s1: State)
    requires NewResource(s) && s.group == 0 && s.cloud.tags == map[] && Passes(up, s, Selects(i), i)
    ensures Enabled(s, Reconcile(Selects(i))) && Allowed(Own, up, s, Reconcile(Selects(i)))
    ensures s1 == Apply(up, s, Reconcile(Selects(i)))
    ensures s1.ctl.Waiting? && !s1.status.Finite() && s1.cloud == s.cloud
    ensures s1.workers == [Worker(i.id, PreDrain, false, false)] && s1.group == 1
    ensures s1.lastTermination.None? && s1.lastDrain.None?
  {
    s1 := Begin(up, s, Selects(i));
    BeginShape(up, s, Selects(i));
    OneSpawned(s.cloud.snap, i);
  }

  lemma OneSpawned(snap: Snapshot, i: Instance)
    requires HasNode(snap, i.id)
    ensures Spawn(WithNode(snap, [i])) == [Worker(i.id, PreDrain, false, false)]
  {
    assert [i][1..] == [];
    assert WithNode(snap, [i]) == [i];
  }
}
