/** From every state of an eager run, some eager continuation completes the upgrade. */
module EagerCompletion {
  import opened Common
  import opened Fleet
  import opened Readiness
  import opened Selection
  import opened Batch
  import opened Stability
  import opened Reselection
  import opened Rotation
  import opened QuietRun
  import opened Convergence
  import opened EagerRun
  import opened Continuation
  import opened Completion
  import opened Restock
  import opened Status

  /** The drifted instances in service. */
  ghost function Serving(c: Cloud): set<InstanceId> {
    set i | i in c.snap.group.instances && IsInstanceDrifted(c.snap, i) && i.lifecycle == InService :: i.id
  }

  /** The members are those of before, or new. */
  ghost predicate SameOrNew(c: Cloud, c': Cloud) {
    forall j :: j in c'.snap.group.instances ==> j in c.snap.group.instances || j.id !in Ids(c.snap.group.instances)
  }

  lemma ServingWithin(gone: set<InstanceId>, c: Cloud, c': Cloud)
    requires DistinctIds(c.snap.group.instances) && Refills(gone, c, c') && SameOrNew(c, c')
    ensures Serving(c') <= Serving(c)
  {
    forall j | j in c'.snap.group.instances && IsInstanceDrifted(c'.snap, j) && j.lifecycle == InService
      ensures j.id in Serving(c)
    {
      assert Accounted(gone, c.snap, c'.snap, j);
      var i :| i in c.snap.group.instances && Survives(c.snap, i, c'.snap, j);
      SameDrift(c.snap, i, c'.snap, j);
      SameMember(c.snap.group.instances, i, j);
    }
  }

  // ----- preparing the next reconcile -----

  /** A step of the environment, which changes nothing but the cloud and leaves what is outstanding. */
  lemma EnvironmentActs(up: Upgrade, s0: State, s: State, c: Cloud) returns (s': State)
    requires Leads(Eagerly, up, s0, s) && OnItsWay(s) && IsEager(up) && StandsBy(TerminatedIds(s.log), s.cloud, c)
    ensures Leads(Eagerly, up, s0, s') && s' == s.(cloud := c) && OnItsWay(s') && Outstanding(s') == Outstanding(s)
  {
    LeadsOn(Eagerly, up, s0, s, Environment(c));
    s' := s.(cloud := c);
    StepOnWay(up, s, Environment(c));
    RefillDrift(TerminatedIds(s.log), s.cloud, c);
  }

  lemma {:induction false} WithoutServes(instances: seq<Instance>, gone: set<InstanceId>)
    ensures |InServiceIds(Without(instances, gone))| <= |InServiceIds(instances)|
  {
    if instances != [] {
      var init, last := instances[..|instances| - 1], instances[|instances| - 1];
      WithoutServes(init, gone);
      InServiceSnoc(Without(init, gone), last);
    }
  }

  lemma ClearedStandsBy(c: Cloud, gone: set<InstanceId>)
    requires Clean(c) && Fits(c)
    ensures StandsBy(gone, c, Cleared(c, gone)) && SameOrNew(c, Cleared(c, gone))
  {
    ClearedRefills(c, gone);
    WithoutServes(c.snap.group.instances, gone);
    ClearedInstances(c, gone);
    MembersStay(c, Cleared(c, gone), gone);
  }

  /** Idle, settled, with usable nodes; what was outstanding still is, and no drifted instance came into service. */
  ghost predicate Prepared(up: Upgrade, s: State, s': State) {
    && OnItsWay(s') && s'.ctl.Idle? && s'.status == s.status && s'.log == s.log && Settled(s')
    && Stocked(s'.cloud.snap.nodes, up.gates)
    && Outstanding(s') == Outstanding(s) && Serving(s'.cloud) <= Serving(s.cloud)
  }

  /** The terminations are carried out and every node is renewed. */
  lemma Renews(up: Upgrade, s0: State, s: State, labels: Labels) returns (s': State)
    requires Leads(Eagerly, up, s0, s) && OnItsWay(s) && IsEager(up) && s.ctl.Idle? && Passes(labels, up.gates)
    ensures Leads(Eagerly, up, s0, s') && Prepared(up, s, s')
  {
    var gone := TerminatedIds(s.log);
    ClearedStandsBy(s.cloud, gone);
    var s1 := EnvironmentActs(up, s0, s, Cleared(s.cloud, gone));
    ServingWithin(gone, s.cloud, s1.cloud);
    ClearedSettles(s);
    s' := RenewsNodes(up, s0, s1, labels);
  }

  lemma RenewsNodes(up: Upgrade, s0: State, s: State, labels: Labels) returns (s': State)
    requires Leads(Eagerly, up, s0, s) && OnItsWay(s) && IsEager(up) && s.ctl.Idle? && Passes(labels, up.gates)
    requires Settled(s)
    ensures Leads(Eagerly, up, s0, s') && Prepared(up, s, s')
  {
    var gone := TerminatedIds(s.log);
    NewNodesRefill(s.cloud, labels, up.gates, gone);
    s' := EnvironmentActs(up, s0, s, WithNewNodes(s.cloud, labels));
    ServingWithin(gone, s.cloud, s'.cloud);
    StillSettled(s, s');
  }

  lemma StillSettled(s: State, s': State)
    requires Settled(s) && s'.log == s.log
    requires forall id :: Candidate(s'.cloud.snap, id) ==> Candidate(s.cloud.snap, id) || id !in TerminatedIds(s.log)
    ensures Settled(s')
  {
  }

  /** One more instance joins the group. */
  lemma OneJoins(up: Upgrade, s0: State, s: State, labels: Labels) returns (s': State)
    requires Leads(Eagerly, up, s0, s) && Prepared(up, s, s) && IsEager(up) && Passes(labels, up.gates)
    requires |InServiceIds(s.cloud.snap.group.instances)| < s.cloud.snap.group.desired
    ensures Leads(Eagerly, up, s0, s') && Prepared(up, s, s') && s' == s.(cloud := s'.cloud)
    ensures s'.cloud.snap.group.desired == s.cloud.snap.group.desired
    ensures |InServiceIds(s'.cloud.snap.group.instances)| == |InServiceIds(s.cloud.snap.group.instances)| + 1
  {
    var gone := TerminatedIds(s.log);
    var id := SomeFree(s.cloud, gone);
    JoinedRefills(s.cloud, id, labels, up.gates, gone);
    JoinedStocked(s.cloud, id, labels, up.gates, gone);
    s' := EnvironmentActs(up, s0, s, Joined(s.cloud, id, labels));
    JoinedBalanced(s.cloud, id, labels, up.gates, gone);
    ServingWithin(gone, s.cloud, s'.cloud);
    forall x | Candidate(s'.cloud.snap, x)
      ensures Candidate(s.cloud.snap, x) || x !in gone
    {
      JoinedMember(s.cloud, id, labels, x);
    }
    StillSettled(s, s');
  }

  lemma {:induction false} FillsUp(up: Upgrade, s0: State, s: State, labels: Labels) returns (s': State)
    requires Leads(Eagerly, up, s0, s) && Prepared(up, s, s) && IsEager(up) && Passes(labels, up.gates)
    ensures Leads(Eagerly, up, s0, s') && Prepared(up, s, s') && s' == s.(cloud := s'.cloud)
    ensures |InServiceIds(s'.cloud.snap.group.instances)| == s'.cloud.snap.group.desired
    decreases s.cloud.snap.group.desired - |InServiceIds(s.cloud.snap.group.instances)|
  {
    if |InServiceIds(s.cloud.snap.group.instances)| < s.cloud.snap.group.desired {
      var t := OneJoins(up, s0, s, labels);
      PreparedAgain(up, s, t);
      s' := FillsUp(up, s0, t, labels);
    } else {
      s' := s;
    }
  }

  lemma PreparedAgain(up: Upgrade, s: State, s': State)
    requires Prepared(up, s, s')
    ensures Prepared(up, s', s')
  {
  }

  /** Ready for a reconcile that gets as far as the batch allows. */
  ghost predicate Ready(up: Upgrade, s: State, s': State) {
    && Prepared(up, s, s') && IntervalGate(up, s') == Proceed
    && |InServiceIds(s'.cloud.snap.group.instances)| == s'.cloud.snap.group.desired
  }

  lemma ReadyAgain(up: Upgrade, s: State, s': State)
    requires Ready(up, s, s')
    ensures Ready(up, s', s')
  {
  }

  lemma GetsReady(up: Upgrade, s0: State, s: State, labels: Labels) returns (s': State)
    requires Leads(Eagerly, up, s0, s) && OnItsWay(s) && IsEager(up) && s.ctl.Idle? && Passes(labels, up.gates)
    ensures Leads(Eagerly, up, s0, s') && Ready(up, s, s')
  {
    var s1 := Renews(up, s0, s, labels);
    PreparedAgain(up, s, s1);
    var s2 := FillsUp(up, s0, s1, labels);
    var d := Wait(s2.lastTermination, s2.now, up.nodeInterval) + Wait(s2.lastDrain, s2.now, up.drainDelay);
    WaitedLongEnough(up, s2);
    LeadsOn(Eagerly, up, s0, s2, Tick(d));
    StepOnWay(up, s2, Tick(d));
    s' := s2.(now := s2.now + d);
    assert Outstanding(s') == Outstanding(s2);
  }

  // ----- the reconcile -----

  /** A reconcile whose calls all succeed, with a budget for the whole batch. */
  lemma SomeEagerReconcile(up: Upgrade, s: State) returns (ch: Choice)
    requires Clean(s.cloud) && Settled(s)
    ensures EagerStep(up, s, Reconcile(ch)) && FromGroup(s.cloud.snap, ch.batch)
    ensures ch.granted == |InServiceIds(ch.batch)|
  {
    var b := SomeBatch(up.strategy, s.cloud);
    BatchWithin(up.strategy, s.cloud, b);
    ch := Tagged(up, s, Choice(true, b, s.cloud.tags, true, |InServiceIds(b)|, true, s.cloud.snap.nodes));
  }

  lemma Tagged(up: Upgrade, s: State, ch: Choice) returns (ch': Choice)
    requires IsBatch(up.strategy, s.cloud, ch.batch)
    ensures SelectsAndTags(up, s, ch') && ch' == ch.(tags := ch'.tags)
  {
    if !ch.discovers || DriftedIds(s.cloud.snap) == {} {
      ch' := ch.(tags := s.cloud.tags);
    } else {
      ch' := ch.(tags := Retag(s.cloud, TagTargets(up, ch)).tags);
    }
  }

  /** What it comes to: completed, idle again with instances tagged, or waiting for a drain round. */
  lemma ReadyOutcome(up: Upgrade, s: State, ch: Choice)
    requires IsEager(up) && Ready(up, s, s) && Enabled(s, Reconcile(ch)) && EagerStep(up, s, Reconcile(ch))
    requires ch.granted == |InServiceIds(ch.batch)|
    ensures var s' := Begin(up, s, ch);
      if DriftedIds(s.cloud.snap) == {} then s'.status == Completed
      else if InServiceIds(ch.batch) != [] then s'.ctl.Idle? && s'.log == s.log
      else s'.ctl == Controller.Waiting(ch.batch, s.cloud.snap, ch.listed)
  {
    StockedOpens(s.cloud, up.gates);
    BeginShape(up, s, ch);
  }

  // ----- instances go on standby -----

  lemma StoodByServing(c: Cloud, id: InstanceId)
    requires DistinctIds(c.snap.group.instances) && Marked(c.tags, id, InProgress)
    ensures Serving(StoodBy(c)) <= Serving(c) - {id}
  {
    var c', all := StoodBy(c), c.snap.group.instances;
    forall j | j in c'.snap.group.instances && IsInstanceDrifted(c'.snap, j) && j.lifecycle == InService
      ensures j.id in Serving(c) && j.id != id
    {
      AsideMember(all, c.tags, j);
      var i :| i in all && j == StandsAside(i, c.tags);
      AsideSurvives(c, i);
      SameDrift(c.snap, i, c'.snap, j);
    }
  }

  /** The batch had instances in service: they were tagged, and going on standby leaves fewer in service. */
  lemma GoesOnStandby(up: Upgrade, s0: State, s: State, ch: Choice) returns (s': State)
    requires Leads(Eagerly, up, s0, s) && IsEager(up) && Ready(up, s, s)
    requires Enabled(s, Reconcile(ch)) && EagerStep(up, s, Reconcile(ch)) && ch.granted == |InServiceIds(ch.batch)|
    requires DriftedIds(s.cloud.snap) != {} && InServiceIds(ch.batch) != []
    ensures Leads(Eagerly, up, s0, s') && OnItsWay(s') && s'.ctl.Idle?
    ensures Outstanding(s') == Outstanding(s) && Serving(s'.cloud) < Serving(s.cloud)
  {
    var id := InServiceIds(ch.batch)[0];
    var s1 := TagsBatch(up, s0, s, ch);
    StoodByRefills(s1.cloud, TerminatedIds(s1.log));
    s' := EnvironmentActs(up, s0, s1, StoodBy(s1.cloud));
    TaggedServes(up, s, ch, id);
    StoodByServing(s1.cloud, id);
  }

  lemma TagsBatch(up: Upgrade, s0: State, s: State, ch: Choice) returns (s': State)
    requires Leads(Eagerly, up, s0, s) && IsEager(up) && Ready(up, s, s)
    requires Enabled(s, Reconcile(ch)) && EagerStep(up, s, Reconcile(ch)) && ch.granted == |InServiceIds(ch.batch)|
    requires DriftedIds(s.cloud.snap) != {} && InServiceIds(ch.batch) != []
    ensures Leads(Eagerly, up, s0, s') && OnItsWay(s') && s'.ctl.Idle? && s'.cloud == s.cloud.(tags := ch.tags)
    ensures Outstanding(s') == Outstanding(s) && Serving(s'.cloud) == Serving(s.cloud)
  {
    ReadyOutcome(up, s, ch);
    LeadsOn(Eagerly, up, s0, s, Reconcile(ch));
    StepOnWay(up, s, Reconcile(ch));
    EagerOutcome(up, s, ch);
    s' := Apply(up, s, Reconcile(ch));
    SnapshotDecides(s, s');
  }

  lemma SnapshotDecides(s: State, s': State)
    requires s'.cloud.snap == s.cloud.snap && s'.log == s.log
    ensures Outstanding(s') == Outstanding(s) && Serving(s'.cloud) == Serving(s.cloud)
  {
  }

  lemma TaggedServes(up: Upgrade, s: State, ch: Choice, id: InstanceId)
    requires Clean(s.cloud) && IsEager(up) && EagerStep(up, s, Reconcile(ch)) && ch.granted == |InServiceIds(ch.batch)|
    requires DriftedIds(s.cloud.snap) != {} && id in InServiceIds(ch.batch)
    ensures Marked(ch.tags, id, InProgress) && id in Serving(s.cloud)
  {
    var c, b := s.cloud, ch.batch;
    assert Take(InServiceIds(b), ch.granted) == InServiceIds(b);
    assert id in TagTargets(up, ch);
    InServiceMember(b, id);
    var i :| i in b && i.id == id && i.lifecycle == InService;
    BatchWithin(up.strategy, c, b);
    CleanBatch(up.strategy, c, b);
    assert id in Ids(b);
    DriftedMember(c.snap, id);
    SelectsTheMember(c.snap.group.instances, i);
  }

  // ----- a drain round -----

  /** The batch had none in service: it is drained and terminated, and less is outstanding. */
  lemma RoundGoes(up: Upgrade, s0: State, s: State, ch: Choice) returns (s': State)
    requires Leads(Eagerly, up, s0, s) && IsEager(up) && Ready(up, s, s)
    requires Enabled(s, Reconcile(ch)) && EagerStep(up, s, Reconcile(ch)) && ch.granted == |InServiceIds(ch.batch)|
    requires DriftedIds(s.cloud.snap) != {} && InServiceIds(ch.batch) == []
    ensures Leads(Eagerly, up, s0, s') && s'.ctl.Idle? && Outstanding(s') < Outstanding(s)
  {
    ReadyOutcome(up, s, ch);
    LeadsOn(Eagerly, up, s0, s, Reconcile(ch));
    StepOnWay(up, s, Reconcile(ch));
    EagerOutcome(up, s, ch);
    var s1 := Apply(up, s, Reconcile(ch));
    var s2 := OthersFinish(Eagerly, up, s0, s1);
    s' := LoopRuns(Eagerly, up, s0, s2);
    LogsKept(s, s1, s2);
    BatchOutstanding(up, s, ch);
    assert RestAmong(s2.ctl, TerminatedIds(s'.log));
    assert s2.ctl.batch[0].id in TerminatedIds(s'.log);
  }

  lemma LogsKept(s: State, s1: State, s2: State)
    requires s1.log == s.log || s1.log == s.log + [RoundStarted(s.now)]
    requires s2.log == s1.log + [RoundFinished(s1.now)]
    ensures TerminatedIds(s2.log) == TerminatedIds(s.log)
  {
    LogSnoc(s.log, RoundStarted(s.now));
    LogSnoc(s1.log, RoundFinished(s1.now));
  }

  lemma BatchOutstanding(up: Upgrade, s: State, ch: Choice)
    requires Clean(s.cloud) && IsEager(up) && EagerStep(up, s, Reconcile(ch)) && DriftedIds(s.cloud.snap) != {}
    ensures ch.batch != [] && ch.batch[0].id in Outstanding(s) && HasNode(s.cloud.snap, ch.batch[0].id)
  {
    var c, b := s.cloud, ch.batch;
    CleanBatch(up.strategy, c, b);
    SettledOutstanding(s);
    assert |DriftedIds(c.snap)| > 0;
    var id :| id in Ids(b);
    assert b[0] in b && b[0].id in Ids(b);
    DriftedMember(c.snap, b[0].id);
  }

  // ----- to the end -----

  lemma StaysOnWay(up: Upgrade, s: State, s': State)
    requires Leads(Eagerly, up, s, s') && IsEager(up) && OnItsWay(s)
    ensures OnItsWay(s')
  {
    var trace: seq<State>, steps: seq<Step> :|
      IsContinuation(Eagerly, up, trace, steps) && trace[0] == s && trace[|steps|] == s';
    OnWayAlong(up, trace, steps, |steps|);
  }

  /** A reconcile under way finishes its round. */
  lemma RoundEnds(up: Upgrade, s: State) returns (s': State)
    requires Leads(Eagerly, up, s, s) && OnItsWay(s) && s.ctl.Waiting?
    ensures Leads(Eagerly, up, s, s') && s'.ctl.Idle?
  {
    var t := OthersFinish(Eagerly, up, s, s);
    s' := LoopRuns(Eagerly, up, s, t);
  }

  lemma BecomesIdleEagerly(up: Upgrade, s: State) returns (s': State)
    requires OnItsWay(s)
    ensures Leads(Eagerly, up, s, s') && s'.ctl.Idle?
  {
    LeadsNowhere(Eagerly, up, s);
    match s.ctl
    case Idle => s' := s;
    case Waiting(_, _, _) => s' := RoundEnds(up, s);
    case Terminating(_, _, _, _) => s' := LoopRuns(Eagerly, up, s, s);
  }

  lemma Finishes(up: Upgrade, s0: State, s: State, ch: Choice) returns (s': State)
    requires Leads(Eagerly, up, s0, s) && IsEager(up) && Ready(up, s, s) && DriftedIds(s.cloud.snap) == {}
    requires Enabled(s, Reconcile(ch)) && EagerStep(up, s, Reconcile(ch)) && ch.granted == |InServiceIds(ch.batch)|
    ensures Leads(Eagerly, up, s0, s') && s'.status == Completed
  {
    ReadyOutcome(up, s, ch);
    LeadsOn(Eagerly, up, s0, s, Reconcile(ch));
    s' := Apply(up, s, Reconcile(ch));
  }

  /** Less is outstanding, or as much with fewer drifted instances in service. */
  ghost predicate Nearer(s: State, s': State) {
    || Outstanding(s') < Outstanding(s)
    || (Outstanding(s') == Outstanding(s) && Serving(s'.cloud) < Serving(s.cloud))
  }

  /** One reconcile completes the upgrade, or terminates some of the drifted instances or puts them on standby. */
  lemma ReadyGoes(up: Upgrade, s0: State, s: State) returns (s': State)
    requires Leads(Eagerly, up, s0, s) && OnItsWay(s0) && IsEager(up) && Ready(up, s, s) && s.status != Completed
    ensures Leads(Eagerly, up, s0, s')
    ensures s'.status == Completed || (OnItsWay(s') && s'.ctl.Idle? && Nearer(s, s'))
  {
    var ch := SomeEagerReconcile(up, s);
    if DriftedIds(s.cloud.snap) == {} {
      s' := Finishes(up, s0, s, ch);
    } else if InServiceIds(ch.batch) != [] {
      s' := GoesOnStandby(up, s0, s, ch);
    } else {
      s' := RoundGoes(up, s0, s, ch);
      StaysOnWay(up, s0, s');
    }
  }

  lemma {:induction false} GoesOnUntilDone(up: Upgrade, s0: State, s: State, labels: Labels) returns (s': State)
    requires Leads(Eagerly, up, s0, s) && OnItsWay(s0) && OnItsWay(s) && IsEager(up) && s.ctl.Idle?
    requires Passes(labels, up.gates)
    ensures Leads(Eagerly, up, s0, s') && s'.status == Completed
    decreases |Outstanding(s)|, |Serving(s.cloud)|
  {
    s' := s;
    if s.status != Completed {
      var t := GetsReady(up, s0, s, labels);
      ReadyAgain(up, s, t);
      s' := ReadyGoes(up, s0, t);
    }
    if s'.status != Completed {
      CloserBy(s, s');
      s' := GoesOnUntilDone(up, s0, s', labels);
    }
  }

  lemma CloserBy(s: State, s': State)
    requires Nearer(s, s')
    ensures |Outstanding(s')| < |Outstanding(s)| ||
            (|Outstanding(s')| == |Outstanding(s)| && |Serving(s'.cloud)| < |Serving(s.cloud)|)
  {
    if Outstanding(s') < Outstanding(s) {
      StrictCard(Outstanding(s'), Outstanding(s));
    } else {
      StrictCard(Serving(s'.cloud), Serving(s.cloud));
    }
  }

  lemma StrictCard<T>(a: set<T>, b: set<T>)
    requires a < b
    ensures |a| < |b|
  {
    assert b == a + (b - a);
  }

  /**
   * Eager completion: from every state of every eager run, if some labels pass all readiness gates, some
   * continuation of the same kind completes the upgrade.
   */
  lemma EagerCompletes(up: Upgrade, trace: seq<State>, steps: seq<Step>, n: nat, labels: Labels)
    requires IsEagerRun(up, trace, steps) && n < |trace| && Passes(labels, up.gates)
    ensures exists s' :: Leads(Eagerly, up, trace[n], s') && s'.status == Completed
  {
    OnWayAtStart(trace[0]);
    OnWayAlong(up, trace, steps, n);
    var s := BecomesIdleEagerly(up, trace[n]);
    StaysOnWay(up, trace[n], s);
    var s' := GoesOnUntilDone(up, trace[n], s, labels);
  }

  lemma ServesPasses(n: Node, inService: seq<InstanceId>, gates: Gates)
    requires Serves(n, inService, gates)
    ensures Passes(n.labels, gates)
  {
    UsableMeans(n, gates);
  }

  /** Gates that no labels pass stay shut for every group that wants instances, so nothing is drained. */
  lemma ContradictoryGates(group: Group, nodes: seq<Node>, gates: Gates)
    requires group.desired > 0 && forall labels: Labels :: !Passes(labels, gates)
    ensures !DesiredReady(group, nodes, gates)
  {
    var inService := InServiceIds(group.instances);
    forall n
      ensures !Serves(n, inService, gates)
    {
      if Serves(n, inService, gates) {
        ServesPasses(n, inService, gates);
      }
    }
    NoneServe(nodes, inService, gates);
  }

  lemma {:induction false} NoneServe(nodes: seq<Node>, inService: seq<InstanceId>, gates: Gates)
    requires forall n :: !Serves(n, inService, gates)
    ensures ServingIds(nodes, inService, gates) == []
  {
    if nodes != [] {
      NoneServe(nodes[..|nodes| - 1], inService, gates);
    }
  }
}
