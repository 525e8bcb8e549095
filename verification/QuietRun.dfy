/**
 * Runs of one upgrade whose cloud changes, while a drain round is open, only by the upgrade's own
 * tags: there every instance handed to termination is one whose drain was run in the current round.
 */
module QuietRun {
  import opened Common
  import opened BatchSize
  import opened Fleet
  import opened Selection
  import opened Batch
  import opened Stability
  import opened Reselection
  import opened Rotation

  ghost predicate Open(s: State) {
    s.group > 0 || !s.ctl.Idle?
  }

  /** The instances a reconcile tags in progress: InService ones only, in eager mode no more than granted. */
  function TagTargets(up: Upgrade, ch: Choice): set<InstanceId> {
    if !ch.tagWorks || !ch.cordons then {}
    else match UpgradeMode(up)
      case Eager => Elems(Take(InServiceIds(ch.batch), ch.granted))
      case Lazy => Elems(InServiceIds(ch.batch))
      case NoMode => {}
  }

  /** Every call of the reconcile's selection worked, and the tags are what selection and tagging made them. */
  ghost predicate SelectsAndTags(up: Upgrade, s: State, ch: Choice) {
    if !ch.discovers || DriftedIds(s.cloud.snap) == {} then
      ch.tags == s.cloud.tags
    else
      && IsBatch(up.strategy, s.cloud, ch.batch)
      && ch.tags == Retag(s.cloud, TagTargets(up, ch)).tags
  }

  /** Besides, a new round starts only with a batch that the next selection will not leave. */
  ghost predicate QuietReconcile(up: Upgrade, s: State, ch: Choice) {
    && SelectsAndTags(up, s, ch)
    && (s.group == 0 && Decide(up, s, ch) == Proceed ==>
          WillStay(up.strategy, s.cloud, ch.batch, TagTargets(up, ch)))
  }

  ghost predicate QuietStep(up: Upgrade, s: State, step: Step) {
    match step
    case Environment(c) => !Open(s) && WellFormed(c)
    case Reconcile(ch) => QuietReconcile(up, s, ch)
    case _ => true
  }

  ghost predicate IsQuietRun(up: Upgrade, trace: seq<State>, steps: seq<Step>) {
    && IsRun(up, trace, steps)
    && WellFormed(trace[0].cloud)
    && forall i :: 0 <= i < |steps| ==> QuietStep(up, trace[i], steps[i])
  }

  // ----- the invariant -----

  function WorkerIds(workers: seq<Worker>): set<InstanceId> {
    set w | w in workers :: w.id
  }

  ghost predicate NoFailure(s: State) {
    forall w :: w in s.workers ==> !w.failed
  }

  /** Each member of the batch that has a node is being drained, or was, by a goroutine of the round. */
  ghost predicate CoveredBy(snap: Snapshot, batch: seq<Instance>, workers: seq<Worker>) {
    forall i :: i in batch && HasNode(snap, i.id) ==> i.id in WorkerIds(workers)
  }

  /** The most a reconcile that selects the batch can tag. */
  function Taggable(up: Upgrade, batch: seq<Instance>): set<InstanceId> {
    if UpgradeMode(up) == NoMode then {} else Elems(InServiceIds(batch))
  }

  /** Whatever a reconcile that selects the batch would tag is held already, or has no node. */
  ghost predicate Steady(up: Upgrade, c: Cloud, batch: seq<Instance>) {
    forall id :: id in Taggable(up, batch) && HasNode(c.snap, id) ==> Held(c, id)
  }

  /** Any batch selected now would be covered, and under the uniform strategy tagging it changes nothing. */
  ghost predicate Pinned(up: Upgrade, c: Cloud, workers: seq<Worker>) {
    forall b :: IsBatch(up.strategy, c, b) ==>
      && CoveredBy(c.snap, b, workers)
      && (KindOf(Defaulted(up.strategy).kind) == Uniform ==> Steady(up, c, b))
  }

  ghost predicate Quiet(up: Upgrade, s: State) {
    && WellFormed(s.cloud)
    && (NoFailure(s) && s.group > 0 ==> Pinned(up, s.cloud, s.workers))
    && (NoFailure(s) && !s.ctl.Idle? ==> CoveredBy(s.ctl.seen, s.ctl.batch, s.workers))
  }

  // ----- it is kept -----

  lemma TaggableInBatch(up: Upgrade, batch: seq<Instance>)
    ensures Taggable(up, batch) <= Ids(batch)
  {
    forall id | id in Taggable(up, batch)
      ensures id in Ids(batch)
    {
      InServiceMember(batch, id);
    }
  }

  lemma TagTargetsInBatch(up: Upgrade, ch: Choice)
    ensures TagTargets(up, ch) <= Taggable(up, ch.batch) && TagTargets(up, ch) <= Ids(ch.batch)
  {
    TaggableInBatch(up, ch.batch);
  }

  /** A reconcile that goes on to its drain round has tagged all it can. */
  lemma ProceedsTagged(up: Upgrade, s: State, ch: Choice)
    requires Decide(up, s, ch) == Proceed
    ensures Taggable(up, ch.batch) <= TagTargets(up, ch)
  {
  }

  lemma StillHeld(c: Cloud, x: set<InstanceId>, id: InstanceId)
    requires WellFormed(c) && id in c.listing && Candidate(c.snap, id) && Held(c, id)
    ensures Held(Retag(c, x), id)
  {
  }

  lemma NowHeld(c: Cloud, x: set<InstanceId>, id: InstanceId)
    requires id in x && HasNode(c.snap, id)
    ensures Held(Retag(c, x), id)
  {
  }

  /** A batch inside another one of the same cloud cannot have more to tag. */
  lemma TaggableWithin(up: Upgrade, snap: Snapshot, b: seq<Instance>, b': seq<Instance>)
    requires DistinctIds(snap.group.instances) && FromGroup(snap, b) && FromGroup(snap, b') && Ids(b') <= Ids(b)
    ensures Taggable(up, b') <= Taggable(up, b)
  {
    forall id | id in InServiceIds(b')
      ensures id in InServiceIds(b)
    {
      InServiceMember(b', id);
      InServiceMember(b, id);
      var i :| i in b' && i.id == id && i.lifecycle == InService;
      assert id in Ids(b);
      var j :| j in b && j.id == id;
      SelectsTheMember(snap.group.instances, i);
      SelectsTheMember(snap.group.instances, j);
    }
  }

  lemma CoveredWithin(snap: Snapshot, b: seq<Instance>, b': seq<Instance>, workers: seq<Worker>)
    requires CoveredBy(snap, b, workers) && Ids(b') <= Ids(b)
    ensures CoveredBy(snap, b', workers)
  {
    forall i | i in b' && HasNode(snap, i.id)
      ensures i.id in WorkerIds(workers)
    {
      assert i.id in Ids(b');
      var j :| j in b && j.id == i.id;
    }
  }

  /** The batch a round starts with: what is selected next lies inside it, and is tagged as far as it can be. */
  lemma PinnedAtStart(up: Upgrade, c: Cloud, b: seq<Instance>, x: set<InstanceId>, workers: seq<Worker>)
    requires WellFormed(c) && IsBatch(up.strategy, c, b) && x <= Ids(b) && CoveredBy(c.snap, b, workers)
    requires WillStay(up.strategy, c, b, x)
    requires KindOf(Defaulted(up.strategy).kind) == Uniform ==> Taggable(up, b) <= x
    ensures WellFormed(Retag(c, x)) && Pinned(up, Retag(c, x), workers)
  {
    BatchWithin(up.strategy, c, b);
    RetagPools(c, x);
    var c' := Retag(c, x);
    forall b': seq<Instance> | IsBatch(up.strategy, c', b')
      ensures CoveredBy(c'.snap, b', workers)
      ensures KindOf(Defaulted(up.strategy).kind) == Uniform ==> Steady(up, c', b')
    {
      SelectionStable(up.strategy, c, b, x, b');
      CoveredWithin(c.snap, b, b', workers);
      BatchWithin(up.strategy, c', b');
      TaggableWithin(up, c.snap, b, b');
      if KindOf(Defaulted(up.strategy).kind) == Uniform {
        forall id | id in Taggable(up, b') && HasNode(c.snap, id)
          ensures Held(c', id)
        {
          NowHeld(c, x, id);
        }
      }
    }
  }

  /** Selecting and tagging once more under the uniform strategy, while the round is open. */
  lemma SteadyAgain(up: Upgrade, c: Cloud, b: seq<Instance>, x: set<InstanceId>, b': seq<Instance>,
                    workers: seq<Worker>)
    requires WellFormed(c) && Pinned(up, c, workers) && KindOf(Defaulted(up.strategy).kind) == Uniform
    requires IsBatch(up.strategy, c, b) && x <= Taggable(up, b) && IsBatch(up.strategy, Retag(c, x), b')
    ensures CoveredBy(c.snap, b', workers) && Steady(up, Retag(c, x), b')
  {
    var c' := Retag(c, x);
    TaggableInBatch(up, b);
    TaggableInBatch(up, b');
    assert Steady(up, c, b) && CoveredBy(c.snap, b, workers);
    if FallsBack(c) && x != {} {
      FallbackStable(up.strategy, c, b, x, b');
      CoveredWithin(c.snap, b, b', workers);
      forall id | id in Taggable(up, b') && HasNode(c.snap, id)
        ensures Held(c', id)
      {
        NowHeld(c, x, id);
      }
    } else {
      SameBatches(up.strategy, c, b, x, b');
      assert Steady(up, c, b') && CoveredBy(c.snap, b', workers);
      BatchWithin(up.strategy, c, b');
      forall id | id in Taggable(up, b') && HasNode(c.snap, id)
        ensures Held(c', id)
      {
        assert id in Ids(b');
        StillHeld(c, x, id);
      }
    }
  }

  /** Selecting and tagging once more keeps the next batch covered. */
  lemma PinnedAgain(up: Upgrade, c: Cloud, b: seq<Instance>, x: set<InstanceId>, workers: seq<Worker>)
    requires WellFormed(c) && Pinned(up, c, workers) && IsBatch(up.strategy, c, b) && x <= Taggable(up, b)
    ensures WellFormed(Retag(c, x)) && Pinned(up, Retag(c, x), workers)
  {
    TaggableInBatch(up, b);
    assert CoveredBy(c.snap, b, workers);
    if KindOf(Defaulted(up.strategy).kind) == Uniform {
      BatchWithin(up.strategy, c, b);
      RetagPools(c, x);
      forall b': seq<Instance> | IsBatch(up.strategy, Retag(c, x), b')
        ensures CoveredBy(c.snap, b', workers) && Steady(up, Retag(c, x), b')
      {
        SteadyAgain(up, c, b, x, b', workers);
      }
    } else {
      PinnedAtStart(up, c, b, x, workers);
    }
  }

  lemma {:induction false} SpawnCovers(snap: Snapshot, batch: seq<Instance>)
    ensures CoveredBy(snap, batch, Spawn(WithNode(snap, batch)))
  {
    forall i | i in batch && HasNode(snap, i.id)
      ensures i.id in WorkerIds(Spawn(WithNode(snap, batch)))
    {
      WithNodeHas(snap, batch, i);
      var targets := WithNode(snap, batch);
      var k :| 0 <= k < |targets| && targets[k] == i;
      assert Spawn(targets)[k] in Spawn(targets);
    }
  }

  lemma {:induction false} WithNodeHas(snap: Snapshot, batch: seq<Instance>, i: Instance)
    requires i in batch && HasNode(snap, i.id)
    ensures i in WithNode(snap, batch)
  {
    if batch[0] != i {
      WithNodeHas(snap, batch[1..], i);
    }
  }

  /** The cloud after a reconcile that selected a batch. */
  lemma QuietCloud(up: Upgrade, s: State, ch: Choice)
    requires WellFormed(s.cloud) && SelectsAndTags(up, s, ch) && ch.discovers && DriftedIds(s.cloud.snap) != {}
    ensures s.cloud.(tags := ch.tags) == Retag(s.cloud, TagTargets(up, ch))
    ensures TagTargets(up, ch) <= Ids(ch.batch) && WellFormed(Retag(s.cloud, TagTargets(up, ch)))
  {
    TagTargetsInBatch(up, ch);
    BatchWithin(up.strategy, s.cloud, ch.batch);
    RetagPools(s.cloud, TagTargets(up, ch));
  }

  /** With no round open, a reconcile either starts one that covers its batch or leaves none. */
  lemma QuietStart(up: Upgrade, s: State, ch: Choice)
    requires Quiet(up, s) && s.ctl.Idle? && s.group == 0
    requires QuietReconcile(up, s, ch) && ch.discovers && DriftedIds(s.cloud.snap) != {}
    ensures Quiet(up, Begin(up, s, ch))
  {
    QuietCloud(up, s, ch);
    if Decide(up, s, ch) == Proceed {
      SpawnCovers(s.cloud.snap, ch.batch);
      ProceedsTagged(up, s, ch);
      PinnedAtStart(up, s.cloud, ch.batch, TagTargets(up, ch), Spawn(WithNode(s.cloud.snap, ch.batch)));
    }
  }

  /** With a round open, a reconcile selects within what the round covers. */
  lemma QuietReselect(up: Upgrade, s: State, ch: Choice)
    requires WellFormed(s.cloud) && Pinned(up, s.cloud, s.workers)
    requires QuietReconcile(up, s, ch) && ch.discovers && DriftedIds(s.cloud.snap) != {}
    ensures CoveredBy(s.cloud.snap, ch.batch, s.workers)
    ensures Pinned(up, Retag(s.cloud, TagTargets(up, ch)), s.workers)
  {
    TagTargetsInBatch(up, ch);
    PinnedAgain(up, s.cloud, ch.batch, TagTargets(up, ch), s.workers);
  }

  /** With a round open, a reconcile changes neither the round nor anything of the cloud but its tags. */
  lemma BeginInRound(up: Upgrade, s: State, ch: Choice)
    requires s.ctl.Idle? && s.group > 0
    ensures var s' := Begin(up, s, ch);
      && s'.workers == s.workers && s'.group == s.group && s'.cloud == s.cloud.(tags := ch.tags)
      && (s'.ctl.Idle? || s'.ctl == Controller.Waiting(ch.batch, s.cloud.snap, ch.listed))
  {
  }

  lemma QuietContinue(up: Upgrade, s: State, ch: Choice)
    requires Quiet(up, s) && s.ctl.Idle? && s.group > 0
    requires QuietReconcile(up, s, ch) && ch.discovers && DriftedIds(s.cloud.snap) != {}
    ensures Quiet(up, Begin(up, s, ch))
  {
    BeginInRound(up, s, ch);
    QuietCloud(up, s, ch);
    var s' := Begin(up, s, ch);
    if NoFailure(s') {
      assert NoFailure(s);
      QuietReselect(up, s, ch);
    }
  }

  lemma QuietBegin(up: Upgrade, s: State, ch: Choice)
    requires Quiet(up, s) && Enabled(s, Reconcile(ch)) && QuietReconcile(up, s, ch)
    ensures Quiet(up, Begin(up, s, ch))
  {
    if !ch.discovers || DriftedIds(s.cloud.snap) == {} {
      assert s.cloud.(tags := ch.tags) == s.cloud;
    } else if s.group == 0 {
      QuietStart(up, s, ch);
    } else {
      QuietContinue(up, s, ch);
    }
  }

  lemma QuietWork(up: Upgrade, s: State, i: nat, ok: bool, tagWorks: bool)
    requires Quiet(up, s) && Safe(s) && Enabled(s, Work(i, ok, tagWorks))
    ensures Quiet(up, Worked(up, s, i, ok, tagWorks))
  {
    var s' := Worked(up, s, i, ok, tagWorks);
    SameWorkers(s.workers, i, s'.workers[i]);
  }

  /** A step of one goroutine keeps the round's IDs, and a failure once recorded stays. */
  lemma SameWorkers(ws: seq<Worker>, i: nat, w: Worker)
    requires i < |ws| && w.id == ws[i].id && (ws[i].failed ==> w.failed)
    ensures var after := ws[i := w];
      && w in after && WorkerIds(after) == WorkerIds(ws)
      && ((forall v :: v in after ==> !v.failed) ==> forall v :: v in ws ==> !v.failed)
  {
    var after := ws[i := w];
    forall j | 0 <= j < |ws|
      ensures ws[j] in ws && after[j] in after && after[j].id == ws[j].id && (ws[j].failed ==> after[j].failed)
    {
    }
    forall v | v in ws
      ensures v.id in WorkerIds(after) && (v.failed ==> exists u :: u in after && u.failed)
    {
      var j :| 0 <= j < |ws| && ws[j] == v;
      assert after[j] in after;
    }
  }

  lemma QuietOther(up: Upgrade, s: State, step: Step)
    requires Quiet(up, s) && Safe(s) && Enabled(s, step) && QuietStep(up, s, step)
    requires !step.Reconcile? && !step.Work?
    ensures Quiet(up, Apply(up, s, step))
  {
    match step
    case ReceiveError(i) =>
      var w := s.workers[i := Delivered(s.workers[i])][i];
      assert w.failed && w in Apply(up, s, step).workers;
    case _ =>
  }

  lemma {:induction false} QuietAlongRun(up: Upgrade, trace: seq<State>, steps: seq<Step>, n: nat)
    requires IsQuietRun(up, trace, steps) && n < |trace|
    ensures Quiet(up, trace[n])
  {
    if n > 0 {
      var s, step := trace[n - 1], steps[n - 1];
      QuietAlongRun(up, trace, steps, n - 1);
      SafeRun(up, trace, steps, n - 1);
      match step
      case Reconcile(ch) => QuietBegin(up, s, ch);
      case Work(i, ok, tagWorks) => QuietWork(up, s, i, ok, tagWorks);
      case _ => QuietOther(up, s, step);
    }
  }

  /**
   * In every quiet run, whenever the terminate loop is on: each instance it will terminate, however
   * many timed-out reconciles lie between its drain and now, has a goroutine of the current round that
   * drained it, exited and reported no failure.
   */
  lemma TerminatedOnlyIfDrained(up: Upgrade, trace: seq<State>, steps: seq<Step>, n: nat)
    requires IsQuietRun(up, trace, steps) && n < |trace| && trace[n].ctl.Terminating?
    ensures forall i :: i in trace[n].ctl.batch && HasNode(trace[n].ctl.seen, i.id) ==>
      exists w :: w in trace[n].workers && w.id == i.id && w.pc.Exited? && w.drained && !w.failed
  {
    QuietAlongRun(up, trace, steps, n);
    DrainSafety(up, trace, steps, n);
    forall i | i in trace[n].ctl.batch && HasNode(trace[n].ctl.seen, i.id)
      ensures exists w :: w in trace[n].workers && w.id == i.id
    {
      assert i.id in WorkerIds(trace[n].workers);
    }
  }
}
