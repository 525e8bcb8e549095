/** Eager upgrades whose calls all succeed, in a group that is refilled while its instances stand by. */
module EagerRun {
  import opened BatchSize
  import opened Fleet
  import opened Selection
  import opened Stability
  import opened Rotation
  import opened QuietRun
  import opened Convergence
  import opened Status

  // ----- what the environment does -----

  /** The group has no more instances InService than it wants. */
  ghost predicate Fits(c: Cloud) {
    |InServiceIds(c.snap.group.instances)| <= c.snap.group.desired
  }

  /** Tagged instances may go on standby and pending ones into service; nothing else changes its state. */
  ghost predicate MayMove(i: Instance, j: Instance, tagged: bool) {
    || i.lifecycle == j.lifecycle
    || (tagged && i.lifecycle in {InService, EnteringStandby} && j.lifecycle in {EnteringStandby, Standby})
    || (i.lifecycle in {Pending, PendingWait, PendingProceed}
        && j.lifecycle in {Pending, PendingWait, PendingProceed, InService})
  }

  /** The environment carries out terminations, puts tagged instances on standby and refills the group. */
  ghost predicate StandsBy(gone: set<InstanceId>, c: Cloud, c': Cloud) {
    && Refills(gone, c, c') && Fits(c')
    && forall i, j :: i in c.snap.group.instances && j in c'.snap.group.instances && i.id == j.id && i.id !in gone ==>
         MayMove(i, j, Marked(c.tags, i.id, InProgress))
  }

  /** Every call succeeds, and a reconcile counts the nodes there are; the budget may grant what it likes. */
  ghost predicate EagerStep(up: Upgrade, s: State, step: Step) {
    match step
    case Environment(c) => StandsBy(TerminatedIds(s.log), s.cloud, c)
    case Reconcile(ch) =>
      && SelectsAndTags(up, s, ch) && ch.discovers && ch.cordons && ch.tagWorks
      && ch.listed == s.cloud.snap.nodes && Settled(s)
    case Work(i, ok, _) => Enabled(s, step) ==> !Advance(s.workers[i], ok, IgnoresDrainFailures(up)).pc.Sending()
    case TerminateNext(ok, untagWorks, scriptOk) => ok && untagWorks && scriptOk
    case _ => true
  }

  ghost predicate IsEager(up: Upgrade) {
    UpgradeMode(up) == Eager && KindOf(Defaulted(up.strategy).kind) != Unrecognised
  }

  ghost predicate IsEagerRun(up: Upgrade, trace: seq<State>, steps: seq<Step>) {
    && IsRun(up, trace, steps) && IsEager(up) && Clean(trace[0].cloud) && Fits(trace[0].cloud)
    && forall i :: 0 <= i < |steps| ==> EagerStep(up, trace[i], steps[i])
  }

  // ----- what holds all along -----

  ghost predicate OnItsWay(s: State) {
    && Clean(s.cloud) && Fits(s.cloud) && Counted(s) && s.status != Error
    && forall w :: w in s.workers ==> !w.pc.Sending()
  }

  /** What an eager reconcile comes to when its calls succeed. */
  lemma EagerOutcome(up: Upgrade, s: State, ch: Choice)
    requires IsEager(up) && ch.discovers && ch.cordons && ch.tagWorks && s.ctl.Idle?
    ensures var s' := Begin(up, s, ch);
      && s'.cloud == s.cloud.(tags := ch.tags) && s'.status in {Running, Completed}
      && (s'.workers == s.workers || s'.workers == Spawn(WithNode(s.cloud.snap, ch.batch)))
      && (s'.log == s.log || s'.log == s.log + [RoundStarted(s.now)])
      && (s'.status == Completed <==> DriftedIds(s.cloud.snap) == {})
  {
    BeginShape(up, s, ch);
    EagerDecides(up, s, ch);
  }

  lemma EagerDecides(up: Upgrade, s: State, ch: Choice)
    requires IsEager(up) && ch.discovers && ch.cordons && ch.tagWorks
    ensures Decide(up, s, ch) != Fail && (Decide(up, s, ch) == Finish <==> DriftedIds(s.cloud.snap) == {})
  {
  }

  lemma SelectedClean(up: Upgrade, s: State, ch: Choice)
    requires Clean(s.cloud) && IsEager(up) && SelectsAndTags(up, s, ch) && ch.discovers
    ensures Clean(s.cloud.(tags := ch.tags))
  {
    if DriftedIds(s.cloud.snap) == {} {
      assert s.cloud.(tags := ch.tags) == s.cloud;
    } else {
      var x := TagTargets(up, ch);
      TagTargetsInBatch(up, ch);
      TagKeepsClean(up.strategy, s.cloud, ch.batch, x);
      assert s.cloud.(tags := ch.tags) == Retag(s.cloud, x);
    }
  }

  lemma ReconcileOnWay(up: Upgrade, s: State, ch: Choice)
    requires OnItsWay(s) && IsEager(up) && Enabled(s, Reconcile(ch)) && EagerStep(up, s, Reconcile(ch))
    ensures OnItsWay(Begin(up, s, ch))
  {
    EagerOutcome(up, s, ch);
    SelectedClean(up, s, ch);
    SpawnedFree(WithNode(s.cloud.snap, ch.batch));
    CountedStep(up, s, Reconcile(ch));
  }

  lemma WorkOnWay(up: Upgrade, s: State, i: nat, ok: bool, tagWorks: bool)
    requires OnItsWay(s) && Enabled(s, Work(i, ok, tagWorks)) && EagerStep(up, s, Work(i, ok, tagWorks))
    ensures OnItsWay(Worked(up, s, i, ok, tagWorks))
  {
    CountedStep(up, s, Work(i, ok, tagWorks));
    var s' := Worked(up, s, i, ok, tagWorks);
    forall w | w in s'.workers
      ensures !w.pc.Sending()
    {
      assert w == s'.workers[i] || w in s.workers;
    }
  }

  lemma LoopOnWay(s: State)
    requires OnItsWay(s) && s.ctl.Terminating?
    ensures var s' := TerminateOne(s, true, true, true);
      && Clean(s'.cloud) && Fits(s'.cloud) && s'.status == s.status && s'.workers == s.workers && s'.group == s.group
  {
    if s.ctl.next < |s.ctl.batch| {
      UntagClean(s.cloud, {s.ctl.batch[s.ctl.next].id});
    }
  }

  lemma StepOnWay(up: Upgrade, s: State, step: Step)
    requires OnItsWay(s) && IsEager(up) && Enabled(s, step) && EagerStep(up, s, step)
    ensures OnItsWay(Apply(up, s, step))
  {
    CountedStep(up, s, step);
    assert forall i :: 0 <= i < |s.workers| ==> !s.workers[i].pc.Sending();
    match step
    case Work(i, ok, tagWorks) => WorkOnWay(up, s, i, ok, tagWorks);
    case Reconcile(ch) => ReconcileOnWay(up, s, ch);
    case Environment(c) => RefillClean(TerminatedIds(s.log), s.cloud, c);
    case TerminateNext(_, _, _) => LoopOnWay(s);
    case _ =>
  }

  lemma {:induction false} OnWayAlong(up: Upgrade, trace: seq<State>, steps: seq<Step>, n: nat)
    requires IsPath(up, trace, steps) && IsEager(up) && OnItsWay(trace[0]) && n < |trace|
    requires forall i :: 0 <= i < |steps| ==> EagerStep(up, trace[i], steps[i])
    ensures OnItsWay(trace[n])
  {
    if n > 0 {
      OnWayAlong(up, trace, steps, n - 1);
      StepOnWay(up, trace[n - 1], steps[n - 1]);
    }
  }

  lemma OnWayAtStart(s: State)
    requires Initial(s) && Clean(s.cloud) && Fits(s.cloud)
    ensures OnItsWay(s)
  {
    ActiveZero(s.workers);
  }
}
