/** From every state of a lazy run, some lazy continuation completes the upgrade. */
module Completion {
  import opened Common
  import opened BatchSize
  import opened Fleet
  import opened Selection
  import opened Batch
  import opened Stability
  import opened Reselection
  import opened Rotation
  import opened QuietRun
  import opened Convergence
  import opened Continuation
  import opened Status

  /** What holds in every state of a lazy run. */
  ghost predicate Underway(up: Upgrade, s: State, start: set<InstanceId>, desired: nat) {
    Converging(up, s, start, desired) && Counted(s)
  }

  lemma {:induction false} UnderwayAlong(up: Upgrade, trace: seq<State>, steps: seq<Step>, n: nat,
                                         start: set<InstanceId>, desired: nat)
    requires IsContinuation(Lazily, up, trace, steps) && Applies(up) && Underway(up, trace[0], start, desired)
    requires n < |trace|
    ensures Underway(up, trace[n], start, desired)
  {
    if n > 0 {
      UnderwayAlong(up, trace, steps, n - 1, start, desired);
      UnderwayStep(up, trace[n - 1], steps[n - 1], start, desired);
    }
  }

  lemma UnderwayStep(up: Upgrade, s: State, step: Step, start: set<InstanceId>, desired: nat)
    requires Underway(up, s, start, desired) && Applies(up) && Enabled(s, step) && Allowed(Lazily, up, s, step)
    ensures Underway(up, Apply(up, s, step), start, desired)
  {
    ConvergingStep(up, s, step, start, desired);
    CountedStep(up, s, step);
  }

  lemma StaysUnderway(up: Upgrade, s: State, s': State, start: set<InstanceId>, desired: nat)
    requires Leads(Lazily, up, s, s') && Applies(up) && Underway(up, s, start, desired)
    ensures Underway(up, s', start, desired)
  {
    var trace: seq<State>, steps: seq<Step> :|
      IsContinuation(Lazily, up, trace, steps) && trace[0] == s && trace[|steps|] == s';
    UnderwayAlong(up, trace, steps, |steps|, start, desired);
  }

  // ----- the terminations are carried out -----

  /** The cloud once the given members have left the group, with nobody new in their place. */
  ghost function Cleared(c: Cloud, gone: set<InstanceId>): Cloud {
    c.(snap := c.snap.(group := c.snap.group.(instances := Without(c.snap.group.instances, gone))))
  }

  lemma ClearedMember(c: Cloud, gone: set<InstanceId>, id: InstanceId)
    requires DistinctIds(c.snap.group.instances)
    ensures Member(Cleared(c, gone).snap, id) == if id in gone then None else Member(c.snap, id)
  {
    var all, rest := c.snap.group.instances, Without(c.snap.group.instances, gone);
    WithoutDistinct(all, gone);
    var m, m' := Member(c.snap, id), Member(Cleared(c, gone).snap, id);
    if m'.Some? {
      WithoutMember(all, gone, m'.value);
      SelectsTheMember(all, m'.value);
    }
    if m.Some? && id !in gone {
      WithoutMember(all, gone, m.value);
      SelectsTheMember(rest, m.value);
    }
  }

  lemma ClearedInstances(c: Cloud, gone: set<InstanceId>)
    ensures forall i :: i in Cleared(c, gone).snap.group.instances <==> i in c.snap.group.instances && i.id !in gone
  {
    forall i
      ensures i in Cleared(c, gone).snap.group.instances <==> i in c.snap.group.instances && i.id !in gone
    {
      WithoutMember(c.snap.group.instances, gone, i);
    }
  }

  /** Whoever is left stays a candidate as before. */
  lemma ClearedCandidate(c: Cloud, gone: set<InstanceId>, id: InstanceId)
    requires Clean(c) && Candidate(Cleared(c, gone).snap, id)
    ensures Candidate(c.snap, id) && id in Ids(c.snap.group.instances) && HasNode(Cleared(c, gone).snap, id)
  {
    ClearedMember(c, gone, id);
    assert Member(c.snap, id).value in c.snap.group.instances;
    assert Candidate(c.snap, id);
    assert HasNode(c.snap, id) && Cleared(c, gone).snap.nodes == c.snap.nodes;
  }

  lemma ClearedWellFormed(c: Cloud, gone: set<InstanceId>)
    requires Clean(c)
    ensures WellFormed(Cleared(c, gone))
    ensures forall id :: Candidate(Cleared(c, gone).snap, id) ==> HasNode(Cleared(c, gone).snap, id)
    ensures forall id :: Candidate(Cleared(c, gone).snap, id) ==> id in Ids(c.snap.group.instances)
  {
    WithoutDistinct(c.snap.group.instances, gone);
    forall id | Candidate(Cleared(c, gone).snap, id)
      ensures Candidate(c.snap, id) && id in Ids(c.snap.group.instances) && HasNode(Cleared(c, gone).snap, id)
    {
      ClearedCandidate(c, gone, id);
    }
  }

  lemma ClearedSurvives(c: Cloud, gone: set<InstanceId>, i: Instance)
    requires i in c.snap.group.instances && i.id !in gone
    ensures i in Cleared(c, gone).snap.group.instances && Survives(c.snap, i, Cleared(c, gone).snap, i)
    ensures Accounted(gone, c.snap, Cleared(c, gone).snap, i)
  {
    ClearedInstances(c, gone);
  }

  lemma ClearedTag(c: Cloud, gone: set<InstanceId>, id: InstanceId)
    requires Clean(c) && id in Cleared(c, gone).tags && Candidate(Cleared(c, gone).snap, id)
    ensures id in Ids(c.snap.group.instances) && Marked(c.tags, id, Cleared(c, gone).tags[id])
  {
    ClearedCandidate(c, gone, id);
  }

  lemma ClearedRefills(c: Cloud, gone: set<InstanceId>)
    requires Clean(c)
    ensures Refills(gone, c, Cleared(c, gone))
  {
    var c' := Cleared(c, gone);
    assert SameTarget(c.snap, c'.snap);
    ClearedWellFormed(c, gone);
    forall j | j in c'.snap.group.instances
      ensures j.id in c'.listing && Accounted(gone, c.snap, c'.snap, j)
    {
      WithoutMember(c.snap.group.instances, gone, j);
      ClearedSurvives(c, gone, j);
    }
    forall i | i in c.snap.group.instances && i.id !in gone
      ensures exists j :: j in c'.snap.group.instances && Survives(c.snap, i, c'.snap, j)
    {
      ClearedSurvives(c, gone, i);
    }
    forall id | id in c'.tags && Candidate(c'.snap, id)
      ensures id in Ids(c.snap.group.instances) && Marked(c.tags, id, c'.tags[id])
    {
      ClearedTag(c, gone, id);
    }
  }

  lemma ClearedSettles(s: State)
    requires DistinctIds(s.cloud.snap.group.instances)
    ensures Settled(s.(cloud := Cleared(s.cloud, TerminatedIds(s.log))))
  {
    var gone := TerminatedIds(s.log);
    forall id | id in gone
      ensures !Candidate(Cleared(s.cloud, gone).snap, id)
    {
      ClearedMember(s.cloud, gone, id);
    }
  }

  // ----- the next reconcile -----

  function Wait(last: Option<int>, now: int, interval: int): nat {
    if last.Some? && last.value + interval > now then last.value + interval - now else 0
  }

  lemma WaitedLongEnough(up: Upgrade, s: State)
    ensures var d := Wait(s.lastTermination, s.now, up.nodeInterval) + Wait(s.lastDrain, s.now, up.drainDelay);
      IntervalGate(up, s.(now := s.now + d)) == Proceed
  {
  }

  /** A reconcile whose calls all succeed. */
  lemma SomeReconcile(up: Upgrade, s: State) returns (ch: Choice)
    requires Clean(s.cloud) && Settled(s)
    ensures LazyStep(up, s, Reconcile(ch)) && FromGroup(s.cloud.snap, ch.batch)
  {
    var b := SomeBatch(up.strategy, s.cloud);
    BatchWithin(up.strategy, s.cloud, b);
    ch := Choice(true, b, s.cloud.tags, true, 0, true, []);
    if DriftedIds(s.cloud.snap) != {} {
      ch := ch.(tags := Retag(s.cloud, TagTargets(up, ch)).tags);
    }
  }

  /** With the intervals over, such a reconcile completes the upgrade or waits for a drain round. */
  lemma CompletesOrWaits(up: Upgrade, s: State, ch: Choice)
    requires Applies(up) && Enabled(s, Reconcile(ch)) && LazyStep(up, s, Reconcile(ch))
    requires IntervalGate(up, s) == Proceed
    ensures var s' := Apply(up, s, Reconcile(ch));
      && (s'.status == Completed || s'.ctl.Waiting?)
      && Rounds(s'.log) == Rounds(s.log)
  {
    LazyOutcome(up, s, ch);
    LogSnoc(s.log, RoundStarted(s.now));
  }

  /** From an idle state: the terminations are carried out, time passes, and the next reconcile runs. */
  lemma NextReconcile(up: Upgrade, s0: State, s: State, start: set<InstanceId>, desired: nat) returns (s': State)
    requires Leads(Lazily, up, s0, s) && Applies(up) && Underway(up, s, start, desired)
    requires s.ctl.Idle? && s.status != Completed
    ensures Leads(Lazily, up, s0, s') && (s'.status == Completed || s'.ctl.Waiting?)
    ensures Rounds(s'.log) == Rounds(s.log) && Underway(up, s', start, desired)
  {
    var s1 := Refilled(up, s0, s, start, desired);
    s' := TimelyReconcile(up, s0, s1, start, desired);
  }

  lemma TimelyReconcile(up: Upgrade, s0: State, s: State, start: set<InstanceId>, desired: nat) returns (s': State)
    requires Leads(Lazily, up, s0, s) && Applies(up) && Underway(up, s, start, desired) && Settled(s)
    requires s.ctl.Idle? && s.status != Completed
    ensures Leads(Lazily, up, s0, s') && (s'.status == Completed || s'.ctl.Waiting?)
    ensures Rounds(s'.log) == Rounds(s.log) && Underway(up, s', start, desired)
  {
    var d := Wait(s.lastTermination, s.now, up.nodeInterval) + Wait(s.lastDrain, s.now, up.drainDelay);
    WaitedLongEnough(up, s);
    var t := s.(now := s.now + d);
    LeadsOn(Lazily, up, s0, s, Tick(d));
    UnderwayStep(up, s, Tick(d), start, desired);
    var ch;
    ch, s' := ReconcileNow(up, t, start, desired);
    LeadsOn(Lazily, up, s0, t, Reconcile(ch));
  }

  lemma ReconcileNow(up: Upgrade, s: State, start: set<InstanceId>, desired: nat) returns (ch: Choice, s': State)
    requires Applies(up) && Underway(up, s, start, desired) && Settled(s) && IntervalGate(up, s) == Proceed
    requires s.ctl.Idle? && s.status != Completed
    ensures Enabled(s, Reconcile(ch)) && LazyStep(up, s, Reconcile(ch)) && s' == Apply(up, s, Reconcile(ch))
    ensures s'.status == Completed || s'.ctl.Waiting?
    ensures Rounds(s'.log) == Rounds(s.log) && Underway(up, s', start, desired)
  {
    ch := SomeReconcile(up, s);
    s' := Apply(up, s, Reconcile(ch));
    CompletesOrWaits(up, s, ch);
    UnderwayStep(up, s, Reconcile(ch), start, desired);
  }

  lemma Refilled(up: Upgrade, s0: State, s: State, start: set<InstanceId>, desired: nat) returns (s': State)
    requires Leads(Lazily, up, s0, s) && Applies(up) && Underway(up, s, start, desired)
    ensures Leads(Lazily, up, s0, s') && Underway(up, s', start, desired) && Settled(s')
    ensures s' == s.(cloud := s'.cloud)
  {
    var c := Cleared(s.cloud, TerminatedIds(s.log));
    ClearedRefills(s.cloud, TerminatedIds(s.log));
    ClearedSettles(s);
    LeadsOn(Lazily, up, s0, s, Environment(c));
    s' := s.(cloud := c);
    EnvironmentStep(up, s, c, start, desired);
  }

  // ----- to the end of the round -----

  /** A drain round that is waited for comes to its end, and so does the reconcile. */
  lemma RoundRuns(up: Upgrade, s0: State, s: State, start: set<InstanceId>, desired: nat) returns (s': State)
    requires Leads(Lazily, up, s0, s) && Underway(up, s, start, desired) && s.ctl.Waiting?
    requires Applies(up) && Underway(up, s0, start, desired)
    ensures Leads(Lazily, up, s0, s') && s'.ctl.Idle? && Rounds(s'.log) == Rounds(s.log) + 1
    ensures Underway(up, s', start, desired)
  {
    var t := OthersFinish(Lazily, up, s0, s);
    LogSnoc(s.log, RoundFinished(s.now));
    s' := LoopRuns(Lazily, up, s0, t);
    StaysUnderway(up, s0, s', start, desired);
  }

  /** However far the upgrade is, it can come to be idle. */
  lemma BecomesIdle(up: Upgrade, s: State, start: set<InstanceId>, desired: nat) returns (s': State)
    requires Applies(up) && Underway(up, s, start, desired)
    ensures Leads(Lazily, up, s, s') && s'.ctl.Idle? && Underway(up, s', start, desired)
  {
    LeadsNowhere(Lazily, up, s);
    match s.ctl
    case Idle => s' := s;
    case Waiting(_, _, _) => s' := RoundRuns(up, s, s, start, desired);
    case Terminating(_, _, _, _) => s' := LoopRuns(Lazily, up, s, s);
    StaysUnderway(up, s, s', start, desired);
  }

  /** From an idle state: every round done leaves one less to do. */
  lemma {:induction false} RoundsRun(up: Upgrade, s0: State, s: State, start: set<InstanceId>, desired: nat)
    returns (s': State)
    requires Leads(Lazily, up, s0, s) && Applies(up) && Underway(up, s, start, desired) && s.ctl.Idle?
    requires Underway(up, s0, start, desired)
    ensures Leads(Lazily, up, s0, s') && s'.status == Completed
    decreases RoundsNeeded(|start|, BatchLimit(up.strategy, desired)) - Rounds(s.log)
  {
    CourseBound(up, s, start, desired);
    if s.status == Completed {
      s' := s;
    } else {
      var t := NextReconcile(up, s0, s, start, desired);
      if t.status == Completed {
        s' := t;
      } else {
        var n := RoundRuns(up, s0, t, start, desired);
        s' := RoundsRun(up, s0, n, start, desired);
      }
    }
  }

  /** From every state of every lazy run, some continuation of the same kind completes the upgrade. */
  lemma LazyCompletes(up: Upgrade, trace: seq<State>, steps: seq<Step>, n: nat)
    requires IsLazyRun(up, trace, steps) && n < |trace|
    ensures exists s' :: Leads(Lazily, up, trace[n], s') && s'.status == Completed
  {
    var start, desired := DriftedIds(trace[0].cloud.snap), trace[0].cloud.snap.group.desired;
    ConvergingRun(up, trace, steps, n);
    CountedRun(up, trace, steps, n);
    var s := BecomesIdle(up, trace[n], start, desired);
    var s' := RoundsRun(up, trace[n], s, start, desired);
  }
}
