/**
 * Lazy upgrades whose calls all succeed, as runs of the transition system: how many drain rounds they
 * take, and which instances they terminate.
 */
module Convergence {
  import opened Common
  import opened BatchSize
  import opened Fleet
  import opened ZoneOrder
  import opened ZoneLevels
  import opened Selection
  import opened Batch
  import opened Stability
  import opened Reselection
  import opened Rotation
  import opened QuietRun
  import opened Status

  /** Well formed, fully listed, every staying member with a node, and only drifted ones tagged in progress. */
  ghost predicate Clean(c: Cloud) {
    && WellFormed(c)
    && (forall i :: i in c.snap.group.instances ==> i.id in c.listing)
    && (forall id :: Candidate(c.snap, id) ==> HasNode(c.snap, id) && !Marked(c.tags, id, FailedDrain))
    && (forall id :: Candidate(c.snap, id) && Marked(c.tags, id, InProgress) ==> Drifted(c.snap, id))
  }

  // ----- the batch of a clean cloud -----

  lemma PoolIsDrifted(c: Cloud)
    requires Clean(c)
    ensures OwnedIds(c) + FreshIds(c, {}) == DriftedIds(c.snap) && OwnedIds(c) !! FreshIds(c, {})
    ensures FreshIds(c, Exclusions(c)) == FreshIds(c, {})
  {
    forall id
      ensures id in DriftedIds(c.snap) <==> id in c.listing && Drifted(c.snap, id)
    {
      if id in DriftedIds(c.snap) {
        var i :| i in c.snap.group.instances && IsInstanceDrifted(c.snap, i) && i.id == id;
        SelectsTheMember(c.snap.group.instances, i);
      }
    }
    ExclusionsAre(c);
    forall id | id in FreshIds(c, {})
      ensures id !in FailedDrains(c)
    {
    }
    assert FreshIds(c, FailedDrains(c)) == FreshIds(c, {});
  }

  /** In a clean cloud a batch is drifted throughout, and as large as the limit and the drift allow. */
  lemma CleanBatch(st: Accepted, c: Cloud, b: seq<Instance>)
    requires Clean(c) && IsBatch(st, c, b) && KindOf(Defaulted(st).kind) != Unrecognised
    ensures Ids(b) <= DriftedIds(c.snap)
    ensures var d, k := |DriftedIds(c.snap)|, BatchLimit(st, c.snap.group.desired);
      |Ids(b)| == if k < d then k else d
  {
    PoolIsDrifted(c);
    BatchWithin(st, c, b);
    BatchCount(st, c, b);
    assert |OwnedIds(c) + FreshIds(c, {})| == |OwnedIds(c)| + |FreshIds(c, {})|;
  }

  lemma BatchDistinct(st: Accepted, c: Cloud, b: seq<Instance>)
    requires WellFormed(c) && IsBatch(st, c, b)
    ensures DistinctIds(b)
  {
    var k, e, p := BatchLimit(st, c.snap.group.desired), Exclusions(c), InProgressTargets(c);
    match KindOf(Defaulted(st).kind)
    case Random =>
      PoolsDistinctIfListed(c, e);
      assert b == Take(p + UnprocessedTargets(c, e), k);
    case Uniform =>
      var o :| IsZoneOrder(UnprocessedTargets(c, e), o) && b == Take(p + o, k);
      UniformIdsOf(c, e, o);
    case Unrecognised =>
  }

  lemma DriftedMember(s: Snapshot, id: InstanceId)
    requires DistinctIds(s.group.instances) && id in DriftedIds(s)
    ensures Drifted(s, id) && Candidate(s, id)
  {
    var i :| i in s.group.instances && IsInstanceDrifted(s, i) && i.id == id;
    SelectsTheMember(s.group.instances, i);
  }

  lemma RetagMarks(c: Cloud, x: set<InstanceId>, id: InstanceId)
    ensures Marked(Retag(c, x).tags, id, FailedDrain) ==> Marked(c.tags, id, FailedDrain)
    ensures Marked(Retag(c, x).tags, id, InProgress) ==> id in x || Marked(c.tags, id, InProgress)
  {
  }

  /** Tagging drifted instances leaves the cloud clean. */
  lemma RetagClean(c: Cloud, x: set<InstanceId>)
    requires Clean(c) && x <= DriftedIds(c.snap) && WellFormed(Retag(c, x))
    ensures Clean(Retag(c, x))
  {
    forall id | Candidate(c.snap, id)
      ensures !Marked(Retag(c, x).tags, id, FailedDrain)
      ensures Marked(Retag(c, x).tags, id, InProgress) ==> Drifted(c.snap, id)
    {
      RetagMarks(c, x, id);
      if id in x {
        DriftedMember(c.snap, id);
      }
    }
  }

  lemma TagKeepsClean(st: Accepted, c: Cloud, b: seq<Instance>, ids: set<InstanceId>)
    requires Clean(c) && IsBatch(st, c, b) && KindOf(Defaulted(st).kind) != Unrecognised && ids <= Ids(b)
    ensures Clean(Retag(c, ids))
  {
    CleanBatch(st, c, b);
    BatchWithin(st, c, b);
    RetagPools(c, ids);
    RetagClean(c, ids);
  }

  lemma UntagClean(c: Cloud, ids: set<InstanceId>)
    requires Clean(c)
    ensures Clean(c.(tags := UntagInProgress(c.tags, ids)))
  {
  }

  // ----- lazy runs in which every call succeeds -----

  ghost function TerminatedIds(log: seq<Event>): set<InstanceId> {
    set e | e in log && e.Terminated? :: e.id
  }

  /** The drifted instances that have not been terminated. */
  ghost function Outstanding(s: State): set<InstanceId> {
    DriftedIds(s.cloud.snap) - TerminatedIds(s.log)
  }

  ghost predicate SameTarget(a: Snapshot, b: Snapshot) {
    && a.templates == b.templates && a.forceRefresh == b.forceRefresh && a.created == b.created
    && a.group.desired == b.group.desired && a.group.launchConfig == b.group.launchConfig
    && a.group.template == b.group.template && a.group.mixed == b.group.mixed
  }

  /** When the node of the instance was created, if it has one. */
  function NodeAge(s: Snapshot, id: InstanceId): Option<int> {
    match SelectNodeByInstanceID(id, s.nodes)
    case Some(n) => Some(n.created)
    case None => None
  }

  /** Still the same instance: its configuration, the age of its node and whether it is leaving. */
  ghost predicate Survives(a: Snapshot, i: Instance, b: Snapshot, j: Instance) {
    && i.id == j.id && i.launchConfig == j.launchConfig && i.template == j.template
    && i.lifecycle.Leaving() == j.lifecycle.Leaving()
    && NodeAge(a, i.id) == NodeAge(b, i.id)
  }

  /** A member of the group after the environment acted: terminated, a survivor, or new and not drifted. */
  ghost predicate Accounted(gone: set<InstanceId>, a: Snapshot, b: Snapshot, j: Instance) {
    || (j.id in gone && j.lifecycle.Leaving())
    || (exists i :: i in a.group.instances && Survives(a, i, b, j))
    || (j.id !in gone && j.id !in Ids(a.group.instances) && !IsInstanceDrifted(b, j))
  }

  /**
   * The environment does nothing but carry out terminations and refill the group: members that were
   * not terminated survive, newcomers are not drifted, and no tag appears.
   */
  ghost predicate Refills(gone: set<InstanceId>, c: Cloud, c': Cloud) {
    && SameTarget(c.snap, c'.snap)
    && WellFormed(c')
    && (forall j :: j in c'.snap.group.instances ==> j.id in c'.listing)
    && (forall id :: Candidate(c'.snap, id) ==> HasNode(c'.snap, id))
    && (forall i :: i in c.snap.group.instances && i.id !in gone ==>
          exists j :: j in c'.snap.group.instances && Survives(c.snap, i, c'.snap, j))
    && (forall j :: j in c'.snap.group.instances ==> Accounted(gone, c.snap, c'.snap, j))
    && (forall id :: id in c'.tags && Candidate(c'.snap, id) ==>
          id in Ids(c.snap.group.instances) && Marked(c.tags, id, c'.tags[id]))
  }

  /** Every terminated instance has left the group or is leaving it. */
  ghost predicate Settled(s: State) {
    forall id :: id in TerminatedIds(s.log) ==> !Candidate(s.cloud.snap, id)
  }

  /** Every call succeeds, and a reconcile sees what came of the terminations before it. */
  ghost predicate LazyStep(up: Upgrade, s: State, step: Step) {
    match step
    case Environment(c) => Refills(TerminatedIds(s.log), s.cloud, c)
    case Reconcile(ch) => SelectsAndTags(up, s, ch) && ch.discovers && ch.cordons && ch.tagWorks && Settled(s)
    case Work(i, ok, _) => Enabled(s, step) ==> !Advance(s.workers[i], ok, IgnoresDrainFailures(up)).pc.Sending()
    case TerminateNext(ok, untagWorks, scriptOk) => ok && untagWorks && scriptOk
    case _ => true
  }

  ghost predicate Applies(up: Upgrade) {
    UpgradeMode(up) == Lazy && KindOf(Defaulted(up.strategy).kind) != Unrecognised
  }

  ghost predicate IsLazyRun(up: Upgrade, trace: seq<State>, steps: seq<Step>) {
    && IsRun(up, trace, steps) && Applies(up) && Clean(trace[0].cloud)
    && forall i :: 0 <= i < |steps| ==> LazyStep(up, trace[i], steps[i])
  }

  // ----- the environment -----

  lemma SameDrift(a: Snapshot, i: Instance, b: Snapshot, j: Instance)
    requires SameTarget(a, b) && Survives(a, i, b, j)
    ensures IsInstanceDrifted(a, i) == IsInstanceDrifted(b, j)
  {
  }

  /** Refilling changes nothing about the drifted instances that were not terminated. */
  lemma RefillDrift(gone: set<InstanceId>, c: Cloud, c': Cloud)
    requires Refills(gone, c, c')
    ensures DriftedIds(c'.snap) - gone == DriftedIds(c.snap) - gone
  {
    forall id | id in DriftedIds(c'.snap) - gone
      ensures id in DriftedIds(c.snap)
    {
      var j :| j in c'.snap.group.instances && IsInstanceDrifted(c'.snap, j) && j.id == id;
      assert Accounted(gone, c.snap, c'.snap, j);
      var i :| i in c.snap.group.instances && Survives(c.snap, i, c'.snap, j);
      SameDrift(c.snap, i, c'.snap, j);
    }
    forall id | id in DriftedIds(c.snap) - gone
      ensures id in DriftedIds(c'.snap)
    {
      var i :| i in c.snap.group.instances && IsInstanceDrifted(c.snap, i) && i.id == id;
      var j :| j in c'.snap.group.instances && Survives(c.snap, i, c'.snap, j);
      SameDrift(c.snap, i, c'.snap, j);
    }
  }

  /** A tagged member that stays was a member before, under the same tag, and drifted then and now alike. */
  lemma TaggedSurvives(gone: set<InstanceId>, c: Cloud, c': Cloud, id: InstanceId)
    requires Clean(c) && Refills(gone, c, c') && Candidate(c'.snap, id) && id in c'.tags
    ensures Candidate(c.snap, id) && Drifted(c.snap, id) == Drifted(c'.snap, id) && Marked(c.tags, id, c'.tags[id])
  {
    var j := Member(c'.snap, id).value;
    assert Accounted(gone, c.snap, c'.snap, j);
    var i :| i in c.snap.group.instances && Survives(c.snap, i, c'.snap, j);
    SelectsTheMember(c.snap.group.instances, i);
    SameDrift(c.snap, i, c'.snap, j);
  }

  lemma RefillClean(gone: set<InstanceId>, c: Cloud, c': Cloud)
    requires Clean(c) && Refills(gone, c, c')
    ensures Clean(c')
  {
    forall id | Candidate(c'.snap, id) && id in c'.tags
      ensures Candidate(c.snap, id) && Drifted(c.snap, id) == Drifted(c'.snap, id) && Marked(c.tags, id, c'.tags[id])
    {
      TaggedSurvives(gone, c, c', id);
    }
  }

  // ----- rounds -----

  /** The drain rounds that were completed. */
  function Rounds(log: seq<Event>): nat {
    if log == [] then 0 else Rounds(log[..|log| - 1]) + if log[|log| - 1].RoundFinished? then 1 else 0
  }

  lemma LogSnoc(log: seq<Event>, e: Event)
    ensures Rounds(log + [e]) == Rounds(log) + if e.RoundFinished? then 1 else 0
    ensures TerminatedIds(log + [e]) == TerminatedIds(log) + if e.Terminated? then {e.id} else {}
  {
    assert (log + [e])[..|log|] == log;
  }

  /** Rounds left for `d` drifted instances in batches of at most `k`. */
  function RoundsNeeded(d: nat, k: nat): nat
    requires k >= 1
  {
    if d == 0 then 0 else 1 + RoundsNeeded(if k < d then d - k else 0, k)
  }

  /** `r` is d / k rounded up: r batches of k suffice and no fewer do. */
  ghost predicate IsCeiling(r: nat, d: nat, k: nat) {
    d <= r * k && (d == 0 ==> r == 0) && (d > 0 ==> (r - 1) * k < d)
  }

  lemma {:induction false} RoundsAreCeiling(d: nat, k: nat)
    requires k >= 1
    ensures IsCeiling(RoundsNeeded(d, k), d, k)
  {
    if d > 0 {
      var rest := if k < d then d - k else 0;
      var r := RoundsNeeded(rest, k);
      RoundsAreCeiling(rest, k);
      assert (r + 1) * k == r * k + k;
      if rest > 0 {
        assert (r - 1) * k == r * k - k;
      }
    }
  }

  // ----- the invariant -----

  /** The batch that is waited for or terminated: outstanding instances, each once and with a node. */
  ghost predicate Chosen(ctl: Controller, from: nat, out: set<InstanceId>)
    requires !ctl.Idle? && from <= |ctl.batch|
  {
    && DistinctIds(ctl.batch)
    && (forall i :: i in ctl.batch ==> HasNode(ctl.seen, i.id))
    && (forall i :: from <= i < |ctl.batch| ==> ctl.batch[i].id in out)
  }

  /** How far the upgrade is, by rounds: `k` is the batch limit, `all` the rounds it takes altogether. */
  ghost predicate OnCourse(ctl: Controller, out: set<InstanceId>, rounds: nat, k: nat, all: nat)
    requires k >= 1
  {
    match ctl
    case Idle => rounds + RoundsNeeded(|out|, k) == all
    case Waiting(b, _, _) =>
      && rounds + RoundsNeeded(|out|, k) == all && out != {}
      && |b| == Min(k, |out|) && Chosen(ctl, 0, out)
    case Terminating(b, _, _, next) =>
      && next <= |b| && rounds >= 1 && rounds - 1 + RoundsNeeded(|out| + next, k) == all && |out| + next > 0
      && |b| == Min(k, |out| + next) && Chosen(ctl, next, out)
  }

  lemma CourseDone(ctl: Controller, out: set<InstanceId>, rounds: nat, k: nat, all: nat)
    requires k >= 1 && ctl.Waiting? && OnCourse(ctl, out, rounds, k, all)
    ensures OnCourse(Controller.Terminating(ctl.batch, ctl.seen, ctl.listed, 0), out, rounds + 1, k, all)
  {
  }

  lemma CourseNext(ctl: Controller, out: set<InstanceId>, rounds: nat, k: nat, all: nat)
    requires k >= 1 && ctl.Terminating? && ctl.next < |ctl.batch| && OnCourse(ctl, out, rounds, k, all)
    ensures var id := ctl.batch[ctl.next].id;
      && id in out && HasNode(ctl.seen, id) && |out - {id}| == |out| - 1
      && OnCourse(ctl.(next := ctl.next + 1), out - {id}, rounds, k, all)
  {
    assert ctl.batch[ctl.next] in ctl.batch;
  }

  /** The end of the terminate loop: the batch has been taken off, and one round less is needed. */
  lemma CourseEnd(ctl: Controller, out: set<InstanceId>, rounds: nat, k: nat, all: nat)
    requires k >= 1 && ctl.Terminating? && ctl.next >= |ctl.batch| && OnCourse(ctl, out, rounds, k, all)
    ensures OnCourse(Idle, out, rounds, k, all)
  {
  }

  /** `start` are the instances that were drifted at the beginning. */
  ghost predicate Converging(up: Upgrade, s: State, start: set<InstanceId>, desired: nat) {
    && Clean(s.cloud) && s.cloud.snap.group.desired == desired
    && (forall w :: w in s.workers ==> !w.pc.Sending())
    && s.status != Error && (s.status == Completed ==> Outstanding(s) == {})
    && Outstanding(s) + TerminatedIds(s.log) == start
    && Course(up, s, start, desired)
  }

  ghost predicate Course(up: Upgrade, s: State, start: set<InstanceId>, desired: nat) {
    var k := BatchLimit(up.strategy, desired);
    OnCourse(s.ctl, Outstanding(s), Rounds(s.log), k, RoundsNeeded(|start|, k))
  }

  /** A step that touches neither the cloud, the log, the controller nor the status. */
  lemma SilentStep(up: Upgrade, s: State, s': State, start: set<InstanceId>, desired: nat)
    requires Converging(up, s, start, desired)
    requires s'.cloud == s.cloud && s'.log == s.log && s'.ctl == s.ctl && s'.status == s.status
    requires forall w :: w in s'.workers ==> !w.pc.Sending()
    ensures Converging(up, s', start, desired)
  {
  }

  lemma WorkStep(up: Upgrade, s: State, i: nat, ok: bool, tagWorks: bool, start: set<InstanceId>, desired: nat)
    requires Converging(up, s, start, desired) && Enabled(s, Work(i, ok, tagWorks))
    requires LazyStep(up, s, Work(i, ok, tagWorks))
    ensures Converging(up, Worked(up, s, i, ok, tagWorks), start, desired)
  {
    var s' := Worked(up, s, i, ok, tagWorks);
    forall w | w in s'.workers
      ensures !w.pc.Sending()
    {
      assert w == s'.workers[i] || w in s.workers;
    }
    SilentStep(up, s, s', start, desired);
  }

  lemma EnvironmentStep(up: Upgrade, s: State, c: Cloud, start: set<InstanceId>, desired: nat)
    requires Converging(up, s, start, desired) && Refills(TerminatedIds(s.log), s.cloud, c)
    ensures Converging(up, s.(cloud := c), start, desired)
  {
    RefillDrift(TerminatedIds(s.log), s.cloud, c);
    RefillClean(TerminatedIds(s.log), s.cloud, c);
    assert Outstanding(s.(cloud := c)) == Outstanding(s);
  }

  /** Once the terminations have settled, what is outstanding is what is drifted. */
  lemma SettledOutstanding(s: State)
    requires Settled(s) && DistinctIds(s.cloud.snap.group.instances)
    ensures Outstanding(s) == DriftedIds(s.cloud.snap)
  {
    forall id | id in DriftedIds(s.cloud.snap)
      ensures id !in TerminatedIds(s.log)
    {
      DriftedMember(s.cloud.snap, id);
    }
  }

  /** What a lazy reconcile comes to when its calls succeed. */
  lemma LazyOutcome(up: Upgrade, s: State, ch: Choice)
    requires UpgradeMode(up) == Lazy && ch.discovers && ch.cordons && ch.tagWorks && s.ctl.Idle?
    ensures var s' := Begin(up, s, ch);
      && s'.cloud == s.cloud.(tags := ch.tags)
      && (if DriftedIds(s.cloud.snap) == {} then
            s'.status == Completed && s'.ctl.Idle? && s'.log == s.log && s'.workers == s.workers
          else
            && s'.status == Running
            && (s'.ctl.Idle? || s'.ctl == Controller.Waiting(ch.batch, s.cloud.snap, ch.listed))
            && (s'.log == s.log || s'.log == s.log + [RoundStarted(s.now)])
            && (s'.workers == s.workers || s'.workers == Spawn(WithNode(s.cloud.snap, ch.batch))))
  {
  }

  lemma SpawnedFree(targets: seq<Instance>)
    ensures forall w :: w in Spawn(targets) ==> !w.pc.Sending()
  {
  }

  lemma FinishStep(up: Upgrade, s: State, ch: Choice, start: set<InstanceId>, desired: nat)
    requires Converging(up, s, start, desired) && Applies(up) && Enabled(s, Reconcile(ch))
    requires LazyStep(up, s, Reconcile(ch))
    requires DriftedIds(s.cloud.snap) == {}
    ensures Converging(up, Begin(up, s, ch), start, desired)
  {
    LazyOutcome(up, s, ch);
    assert s.cloud.(tags := ch.tags) == s.cloud;
    assert Outstanding(s) == {};
  }

  /** The batch of a reconcile that waits for a drain round is chosen from what is outstanding. */
  lemma BatchChosen(up: Upgrade, s: State, ch: Choice, ctl: Controller)
    requires Clean(s.cloud) && IsBatch(up.strategy, s.cloud, ch.batch)
    requires KindOf(Defaulted(up.strategy).kind) != Unrecognised
    requires ctl == Controller.Waiting(ch.batch, s.cloud.snap, ch.listed)
    ensures var d := DriftedIds(s.cloud.snap);
      && |ch.batch| == Min(BatchLimit(up.strategy, s.cloud.snap.group.desired), |d|) && Chosen(ctl, 0, d)
  {
    var d := DriftedIds(s.cloud.snap);
    CleanBatch(up.strategy, s.cloud, ch.batch);
    BatchDistinct(up.strategy, s.cloud, ch.batch);
    IdsCard(ch.batch);
    forall i | i in ch.batch
      ensures i.id in d && HasNode(s.cloud.snap, i.id)
    {
      assert i.id in Ids(ch.batch);
      DriftedMember(s.cloud.snap, i.id);
    }
  }

  lemma SelectStep(up: Upgrade, s: State, ch: Choice, start: set<InstanceId>, desired: nat)
    requires Converging(up, s, start, desired) && Applies(up) && Enabled(s, Reconcile(ch))
    requires LazyStep(up, s, Reconcile(ch))
    requires DriftedIds(s.cloud.snap) != {}
    ensures Converging(up, Begin(up, s, ch), start, desired)
  {
    var s' := Begin(up, s, ch);
    SelectedCloud(up, s, ch);
    LazyOutcome(up, s, ch);
    SettledOutstanding(s);
    SameLedger(s, s');
    SpawnedFree(WithNode(s.cloud.snap, ch.batch));
    if s'.ctl.Waiting? {
      BatchChosen(up, s, ch, s'.ctl);
    }
    SameCourse(up, s, s', start, desired);
    Together(up, s', start, desired);
  }

  lemma SelectedCloud(up: Upgrade, s: State, ch: Choice)
    requires Clean(s.cloud) && Applies(up) && SelectsAndTags(up, s, ch) && ch.discovers
    requires DriftedIds(s.cloud.snap) != {}
    ensures Clean(s.cloud.(tags := ch.tags))
  {
    var x := TagTargets(up, ch);
    TagTargetsInBatch(up, ch);
    TagKeepsClean(up.strategy, s.cloud, ch.batch, x);
    assert s.cloud.(tags := ch.tags) == Retag(s.cloud, x);
  }

  /** Starting a round changes neither what is outstanding nor the rounds completed. */
  lemma SameLedger(s: State, s': State)
    requires s'.cloud.snap == s.cloud.snap && (s'.log == s.log || s'.log == s.log + [RoundStarted(s.now)])
    ensures Outstanding(s') == Outstanding(s) && TerminatedIds(s'.log) == TerminatedIds(s.log)
    ensures Rounds(s'.log) == Rounds(s.log)
  {
    LogSnoc(s.log, RoundStarted(s.now));
  }

  /** Nothing was terminated, and the controller waits again or starts to wait for a chosen batch. */
  lemma SameCourse(up: Upgrade, s: State, s': State, start: set<InstanceId>, desired: nat)
    requires s.ctl.Idle? && Course(up, s, start, desired) && Outstanding(s) != {}
    requires Outstanding(s') == Outstanding(s) && Rounds(s'.log) == Rounds(s.log)
    requires s'.ctl.Idle? || (s'.ctl.Waiting? && Chosen(s'.ctl, 0, Outstanding(s))
                              && |s'.ctl.batch| == Min(BatchLimit(up.strategy, desired), |Outstanding(s)|))
    ensures Course(up, s', start, desired)
  {
  }

  lemma DoneStep(up: Upgrade, s: State, start: set<InstanceId>, desired: nat)
    requires Converging(up, s, start, desired) && Enabled(s, GroupDone)
    ensures Converging(up, Apply(up, s, GroupDone), start, desired)
  {
    var k, s' := BatchLimit(up.strategy, desired), Apply(up, s, GroupDone);
    assert Course(up, s, start, desired);
    LogSnoc(s.log, RoundFinished(s.now));
    CourseDone(s.ctl, Outstanding(s), Rounds(s.log), k, RoundsNeeded(|start|, k));
    assert s'.cloud == s.cloud && TerminatedIds(s'.log) == TerminatedIds(s.log);
    assert s'.ctl == Controller.Terminating(s.ctl.batch, s.ctl.seen, s.ctl.listed, 0);
    Together(up, s', start, desired);
  }

  /** The controller has become idle, by a time-out or at the end of the terminate loop. */
  lemma IdleStep(up: Upgrade, s: State, start: set<InstanceId>, desired: nat)
    requires Converging(up, s, start, desired)
    requires s.ctl.Waiting? || (s.ctl.Terminating? && s.ctl.next >= |s.ctl.batch|)
    ensures Converging(up, s.(ctl := Idle), start, desired)
  {
    var k := BatchLimit(up.strategy, desired);
    assert Outstanding(s.(ctl := Idle)) == Outstanding(s);
    if s.ctl.Terminating? {
      CourseEnd(s.ctl, Outstanding(s), Rounds(s.log), k, RoundsNeeded(|start|, k));
    }
  }

  lemma OneLess(s: State, s': State, e: Event)
    requires e.Terminated? && e.id in Outstanding(s) && s'.log == s.log + [e] && s'.cloud.snap == s.cloud.snap
    ensures Outstanding(s') == Outstanding(s) - {e.id}
    ensures TerminatedIds(s'.log) == TerminatedIds(s.log) + {e.id} && Rounds(s'.log) == Rounds(s.log)
  {
    LogSnoc(s.log, e);
  }

  lemma LoopStep(up: Upgrade, s: State, start: set<InstanceId>, desired: nat)
    requires Converging(up, s, start, desired) && s.ctl.Terminating? && s.ctl.next < |s.ctl.batch|
    ensures Converging(up, TerminateOne(s, true, true, true), start, desired)
  {
    var c, k := s.ctl, BatchLimit(up.strategy, desired);
    var id, s' := c.batch[c.next].id, TerminateOne(s, true, true, true);
    assert Course(up, s, start, desired);
    CourseNext(c, Outstanding(s), Rounds(s.log), k, RoundsNeeded(|start|, k));
    LoopShape(s);
    OneLess(s, s', Event.Terminated(s.now, id, s.reconciles));
    UntagClean(s.cloud, {id});
    Moved(Outstanding(s), TerminatedIds(s.log), id);
    Together(up, s', start, desired);
  }

  lemma LoopShape(s: State)
    requires s.ctl.Terminating? && s.ctl.next < |s.ctl.batch| && HasNode(s.ctl.seen, s.ctl.batch[s.ctl.next].id)
    ensures var id, s' := s.ctl.batch[s.ctl.next].id, TerminateOne(s, true, true, true);
      && s'.cloud == s.cloud.(tags := UntagInProgress(s.cloud.tags, {id}))
      && s'.log == s.log + [Event.Terminated(s.now, id, s.reconciles)]
      && s'.ctl == s.ctl.(next := s.ctl.next + 1) && s'.status == s.status && s'.workers == s.workers
  {
  }

  lemma Together(up: Upgrade, s: State, start: set<InstanceId>, desired: nat)
    requires Clean(s.cloud) && s.cloud.snap.group.desired == desired
    requires (forall w :: w in s.workers ==> !w.pc.Sending()) && s.status != Error && s.status != Completed
    requires Outstanding(s) + TerminatedIds(s.log) == start && Course(up, s, start, desired)
    ensures Converging(up, s, start, desired)
  {
  }

  lemma Moved<T>(a: set<T>, b: set<T>, x: T)
    requires x in a
    ensures (a - {x}) + (b + {x}) == a + b
  {
  }

  lemma ConvergingStep(up: Upgrade, s: State, step: Step, start: set<InstanceId>, desired: nat)
    requires Converging(up, s, start, desired) && Applies(up) && Enabled(s, step) && LazyStep(up, s, step)
    ensures Converging(up, Apply(up, s, step), start, desired)
  {
    assert forall i :: 0 <= i < |s.workers| ==> !s.workers[i].pc.Sending();
    match step
    case Tick(_) => SilentStep(up, s, Apply(up, s, step), start, desired);
    case Restart => SilentStep(up, s, Apply(up, s, step), start, desired);
    case Work(i, ok, tagWorks) => WorkStep(up, s, i, ok, tagWorks, start, desired);
    case Environment(c) => EnvironmentStep(up, s, c, start, desired);
    case Reconcile(ch) =>
      if DriftedIds(s.cloud.snap) == {} {
        FinishStep(up, s, ch, start, desired);
      } else {
        SelectStep(up, s, ch, start, desired);
      }
    case ReceiveError(_) =>
    case GroupDone => DoneStep(up, s, start, desired);
    case TimedOut => IdleStep(up, s, start, desired);
    case TerminateNext(_, _, _) =>
      if s.ctl.next < |s.ctl.batch| {
        LoopStep(up, s, start, desired);
      } else {
        IdleStep(up, s, start, desired);
      }
  }

  lemma {:induction false} ConvergingRun(up: Upgrade, trace: seq<State>, steps: seq<Step>, n: nat)
    requires IsLazyRun(up, trace, steps) && n < |trace|
    ensures Converging(up, trace[n], DriftedIds(trace[0].cloud.snap), trace[0].cloud.snap.group.desired)
  {
    var start, desired := DriftedIds(trace[0].cloud.snap), trace[0].cloud.snap.group.desired;
    if n > 0 {
      ConvergingRun(up, trace, steps, n - 1);
      ConvergingStep(up, trace[n - 1], steps[n - 1], start, desired);
    } else {
      ConvergingStart(up, trace[0]);
    }
  }

  lemma ConvergingStart(up: Upgrade, s: State)
    requires Initial(s) && Clean(s.cloud)
    ensures Converging(up, s, DriftedIds(s.cloud.snap), s.cloud.snap.group.desired)
  {
    ActiveZero(s.workers);
    assert TerminatedIds(s.log) == {};
    assert Outstanding(s) == DriftedIds(s.cloud.snap);
  }

  /** What the invariant says about the rounds done so far and about a reconcile that comes next. */
  lemma CourseBound(up: Upgrade, s: State, start: set<InstanceId>, desired: nat)
    requires Course(up, s, start, desired)
    ensures var all := RoundsNeeded(|start|, BatchLimit(up.strategy, desired));
      && Rounds(s.log) <= all
      && (s.ctl.Idle? ==> (Rounds(s.log) == all <==> Outstanding(s) == {}))
  {
  }

  /**
   * Lazy convergence. Of an upgrade that starts with d drifted instances and batches of at most k, in
   * every run in which the calls succeed and the environment only carries out terminations and refills
   * the group: there are never more than ceil(d / k) completed drain rounds; a reconcile completes the
   * upgrade exactly when that many are done; the upgrade never fails; at every moment the instances
   * terminated and those still drifted are together the ones drifted at the start; and when it is
   * completed, exactly those have been terminated.
   */
  lemma LazyConvergence(up: Upgrade, trace: seq<State>, steps: seq<Step>, n: nat)
    requires IsLazyRun(up, trace, steps) && n < |trace|
    ensures var d, k := |DriftedIds(trace[0].cloud.snap)|, BatchLimit(up.strategy, trace[0].cloud.snap.group.desired);
      var rounds := RoundsNeeded(d, k);
      && IsCeiling(rounds, d, k)
      && Rounds(trace[n].log) <= rounds
      && (n < |steps| && steps[n].Reconcile? ==> (trace[n + 1].status == Completed <==> Rounds(trace[n].log) == rounds))
    ensures trace[n].status != Error
    ensures Outstanding(trace[n]) + TerminatedIds(trace[n].log) == DriftedIds(trace[0].cloud.snap)
    ensures trace[n].status == Completed ==> TerminatedIds(trace[n].log) == DriftedIds(trace[0].cloud.snap)
  {
    var start, desired := DriftedIds(trace[0].cloud.snap), trace[0].cloud.snap.group.desired;
    ConvergingRun(up, trace, steps, n);
    CourseBound(up, trace[n], start, desired);
    RoundsAreCeiling(|start|, BatchLimit(up.strategy, desired));
    if n < |steps| && steps[n].Reconcile? {
      var s, ch := trace[n], steps[n].choice;
      assert Enabled(s, Reconcile(ch)) && LazyStep(up, s, Reconcile(ch)) && trace[n + 1] == Apply(up, s, Reconcile(ch));
      CompletesIff(up, s, ch, trace[n + 1]);
    }
  }

  lemma CompletesIff(up: Upgrade, s: State, ch: Choice, s': State)
    requires UpgradeMode(up) == Lazy && Clean(s.cloud) && Enabled(s, Reconcile(ch)) && LazyStep(up, s, Reconcile(ch))
    requires s' == Apply(up, s, Reconcile(ch))
    ensures s'.status == Completed <==> Outstanding(s) == {}
  {
    LazyOutcome(up, s, ch);
    SettledOutstanding(s);
  }
}
