/**
 * What a drain round consists of, in terms of the steps of a run: which stages each goroutine has been
 * through when its instance is terminated, and what a failing stage leads to.
 */
module Stages {
  import opened Common
  import opened BatchSize
  import opened Fleet
  import opened Readiness
  import opened Selection
  import opened Rotation
  import opened Status
  import opened Continuation

  /** A failing drain counts as done: the resource says so, or says nothing and the controller does. */
  ghost predicate DrainIgnored(up: Upgrade) {
    up.ignoreInSpec == Some(true) || (up.ignoreInSpec == None && up.ignoreByDefault)
  }

  // ----- the stages of a goroutine -----

  /** The step replaces the goroutines: a restart, or a reconcile that starts a round. */
  ghost predicate NewRound(s: State, step: Step, s': State) {
    step.Restart? || (step.Reconcile? && s.group == 0 && s'.ctl.Waiting?)
  }

  /** A stage a goroutine went through, and whether it succeeded. */
  datatype Stage = Stage(at: Pc, ok: bool)

  /** The stage, if any, that the step takes the goroutine through. */
  ghost function Took(s: State, step: Step, i: nat): seq<Stage> {
    if step.Work? && step.i == i < |s.workers| && s.workers[i].pc != Leaving then [Stage(s.workers[i].pc, step.ok)]
    else []
  }

  /** The stages the goroutine has been through in the current round, in order. */
  ghost function Course(trace: seq<State>, steps: seq<Step>, n: nat, i: nat): seq<Stage>
    requires |trace| == |steps| + 1 && n < |trace|
  {
    if n == 0 || NewRound(trace[n - 1], steps[n - 1], trace[n]) then []
    else Course(trace, steps, n - 1, i) + Took(trace[n - 1], steps[n - 1], i)
  }

  ghost predicate Counts(up: Upgrade, stage: Stage) {
    stage.ok || (stage.at == Drain && DrainIgnored(up))
  }

  /** Both scripts around the drain and the one after the wait, unless the drain failed: then nothing after it. */
  ghost function Whole(up: Upgrade, c: seq<Stage>): seq<Pc> {
    if |c| >= 2 && !Counts(up, c[1]) then [PreDrain, Drain] else [PreDrain, Drain, PostDrain, PostWait]
  }

  /**
   * The goroutine is in the middle of its course, at the stage that comes next or blocked on the failure
   * of the last, or at its end; it has failed exactly when one of its stages has, and counts as drained
   * exactly when its drain does.
   */
  ghost predicate OnCourse(up: Upgrade, w: Worker, c: seq<Stage>) {
    var whole := Whole(up, c);
    && |c| <= |whole|
    && (forall k :: 0 <= k < |c| ==> c[k].at == whole[k])
    && (w.failed <==> exists k :: 0 <= k < |c| && !Counts(up, c[k]))
    && (w.drained <==> |c| >= 2 && Counts(up, c[1]))
    && match w.pc
       case Leaving => |c| == |whole|
       case Exited => |c| == |whole|
       case SendPreDrain => |c| == 1
       case SendDrain => |c| == |whole| == 2
       case SendPostDrain => |c| == 3
       case SendPostWait => |c| == 4
       case next => |c| < |whole| && whole[|c|] == next
  }

  /** A goroutine that takes a step goes on along its course. */
  lemma AdvancesBy(up: Upgrade, w: Worker, c: seq<Stage>, ok: bool)
    requires !w.pc.Sending() && !w.pc.Exited? && OnCourse(up, w, c)
    ensures OnCourse(up, Advance(w, ok, IgnoresDrainFailures(up)), if w.pc == Leaving then c else c + [Stage(w.pc, ok)])
  {
    if w.pc != Leaving {
      var c' := c + [Stage(w.pc, ok)];
      assert c'[|c|] == Stage(w.pc, ok) && forall k :: 0 <= k < |c| ==> c'[k] == c[k];
    }
  }

  lemma DeliveredOnCourse(up: Upgrade, w: Worker, c: seq<Stage>)
    requires w.pc.Sending() && OnCourse(up, w, c)
    ensures OnCourse(up, Delivered(w), c)
  {
  }

  ghost predicate RoundOpen(s: State) {
    s.group > 0 || !s.ctl.Idle?
  }

  /** Any other step inside a round leaves a goroutine where it is, or lets one go on whose error was received. */
  lemma SameOrDelivered(up: Upgrade, s: State, step: Step, i: nat)
    requires Enabled(s, step) && !step.Work? && !NewRound(s, step, Apply(up, s, step))
    requires i < |Apply(up, s, step).workers|
    ensures i < |s.workers|
    ensures Apply(up, s, step).workers[i] ==
            if step.ReceiveError? && step.i == i then Delivered(s.workers[i]) else s.workers[i]
    ensures RoundOpen(Apply(up, s, step)) ==> RoundOpen(s)
  {
    if step.Reconcile? {
      BeginShape(up, s, step.choice);
    }
  }

  lemma FreshRound(up: Upgrade, s: State, step: Step, i: nat)
    requires Enabled(s, step) && NewRound(s, step, Apply(up, s, step)) && i < |Apply(up, s, step).workers|
    ensures OnCourse(up, Apply(up, s, step).workers[i], [])
  {
    if step.Reconcile? {
      BeginShape(up, s, step.choice);
    }
  }

  lemma CourseStep(up: Upgrade, s: State, step: Step, i: nat, c: seq<Stage>)
    requires Safe(s) && Enabled(s, step) && RoundOpen(Apply(up, s, step)) && i < |Apply(up, s, step).workers|
    requires !NewRound(s, step, Apply(up, s, step))
    requires RoundOpen(s) && i < |s.workers| ==> OnCourse(up, s.workers[i], c)
    ensures OnCourse(up, Apply(up, s, step).workers[i], c + Took(s, step, i))
  {
    assert c + [] == c;
    if step.Work? {
      ActiveZero(s.workers);
      if step.i == i {
        AdvancesBy(up, s.workers[i], c, step.ok);
      }
    } else {
      SameOrDelivered(up, s, step, i);
      if step.ReceiveError? && step.i == i {
        DeliveredOnCourse(up, s.workers[i], c);
      }
    }
  }

  /**
   * The course of every goroutine, in every state of every run with a round open: the script before the
   * drain, the drain, the script after it and the script after the wait, in this order and each once. A
   * failing script does not end it, a failing drain does, unless the failure is ignored.
   */
  lemma {:induction false} GoroutineCourse(up: Upgrade, trace: seq<State>, steps: seq<Step>, n: nat, i: nat)
    requires IsRun(up, trace, steps) && n < |trace| && RoundOpen(trace[n]) && i < |trace[n].workers|
    ensures OnCourse(up, trace[n].workers[i], Course(trace, steps, n, i))
  {
    if n > 0 {
      SafeRun(up, trace, steps, n - 1);
      if RoundOpen(trace[n - 1]) && i < |trace[n - 1].workers| {
        GoroutineCourse(up, trace, steps, n - 1, i);
      }
      CourseNext(up, trace, steps, n, i);
    }
  }

  lemma CourseNext(up: Upgrade, trace: seq<State>, steps: seq<Step>, n: nat, i: nat)
    requires IsPath(up, trace, steps) && 0 < n < |trace| && Safe(trace[n - 1])
    requires RoundOpen(trace[n]) && i < |trace[n].workers|
    requires RoundOpen(trace[n - 1]) && i < |trace[n - 1].workers| ==>
      OnCourse(up, trace[n - 1].workers[i], Course(trace, steps, n - 1, i))
    ensures OnCourse(up, trace[n].workers[i], Course(trace, steps, n, i))
  {
    var s, step := trace[n - 1], steps[n - 1];
    if NewRound(s, step, trace[n]) {
      FreshRound(up, s, step, i);
    } else {
      CourseStep(up, s, step, i, Course(trace, steps, n - 1, i));
    }
  }

  /**
   * Whenever the terminate loop is on, every goroutine of the round has been through all four stages in
   * the current round, each of them with success, but for a drain whose failure is ignored.
   */
  lemma AllStagesPassed(up: Upgrade, trace: seq<State>, steps: seq<Step>, n: nat, i: nat)
    requires IsRun(up, trace, steps) && n < |trace| && trace[n].ctl.Terminating? && i < |trace[n].workers|
    ensures var c := Course(trace, steps, n, i);
      && |c| == 4 && c[0].at == PreDrain && c[1].at == Drain && c[2].at == PostDrain && c[3].at == PostWait
      && forall k :: 0 <= k < 4 ==> c[k].ok || (c[k].at == Drain && DrainIgnored(up))
  {
    DrainSafety(up, trace, steps, n);
    assert trace[n].workers[i] in trace[n].workers;
    GoroutineCourse(up, trace, steps, n, i);
  }

  // ----- a stage that fails -----

  /** The upgrade has failed, or the goroutine still waits for its failure to be received. */
  ghost predicate Stopped(s: State, i: nat) {
    || (s.status == Error && s.ctl.Idle?)
    || (i < |s.workers| && s.workers[i].pc.Sending() && !s.ctl.Terminating?)
  }

  lemma StoppedStep(up: Upgrade, s: State, step: Step, i: nat)
    requires Counted(s) && Stopped(s, i) && Enabled(s, step) && !step.Restart?
    ensures Stopped(Apply(up, s, step), i)
  {
    ActiveZero(s.workers);
    if step.Reconcile? {
      BeginShape(up, s, step.choice);
    }
  }

  lemma {:induction false} StoppedAlong(up: Upgrade, trace: seq<State>, steps: seq<Step>, n: nat, m: nat, i: nat)
    requires IsRun(up, trace, steps) && n <= m < |trace| && Stopped(trace[n], i)
    requires forall j :: n <= j < m ==> !steps[j].Restart?
    ensures Stopped(trace[m], i)
  {
    if n < m {
      StoppedAlong(up, trace, steps, n, m - 1, i);
      CountedRun(up, trace, steps, m - 1);
      StoppedStep(up, trace[m - 1], steps[m - 1], i);
    }
  }

  /**
   * What a failing stage leads to. A drain whose failure the resource's setting ignores, or failing that
   * the controller's, is passed like any other and tags nothing. Every other failure blocks the
   * goroutine until it is received; a failing drain tags the instance drain-failed if the call works;
   * and from then on, short of a restart, the terminate loop is not reached and the upgrade has failed
   * or the goroutine is still blocked.
   */
  lemma FailingStage(up: Upgrade, trace: seq<State>, steps: seq<Step>, n: nat, m: nat, i: nat)
    requires IsRun(up, trace, steps) && n < |steps| && n < m < |trace|
    requires steps[n].Work? && steps[n].i == i && !steps[n].ok && trace[n].workers[i].pc != Leaving
    requires forall j :: n <= j < m ==> !steps[j].Restart?
    ensures var w, w' := trace[n].workers[i], trace[n + 1].workers[i];
      var tags, tags' := trace[n].cloud.tags, trace[n + 1].cloud.tags;
      if w.pc == Drain && DrainIgnored(up) then
        w'.pc == PostDrain && w'.failed == w.failed && tags' == tags
      else
        && w'.pc.Sending() && w'.failed
        && tags' == (if w.pc == Drain && steps[n].tagWorks then tags[w.id := FailedDrain] else tags)
        && !trace[m].ctl.Terminating?
        && (trace[m].status == Error || (i < |trace[m].workers| && trace[m].workers[i].pc.Sending()))
  {
    SafeRun(up, trace, steps, n);
    ActiveZero(trace[n].workers);
    if !(trace[n].workers[i].pc == Drain && DrainIgnored(up)) {
      assert Stopped(trace[n + 1], i);
      StoppedAlong(up, trace, steps, n + 1, m, i);
    }
  }

  /** With its failures ignored a waiting round may go on to the terminate loop, whichever drains fail. */
  lemma IgnoredGoesOn(up: Upgrade, s: State, i: nat)
    requires DrainIgnored(up) && Counted(s) && s.ctl.Waiting? && NoneBlocked(s.workers)
    requires i < |s.workers| && s.workers[i].pc == Drain
    ensures exists s' :: Leads(Within, up, Apply(up, s, Work(i, false, true)), s') && s'.ctl.Terminating?
  {
    var s1 := Apply(up, s, Work(i, false, true));
    CountedStep(up, s, Work(i, false, true));
    StillFree(s.workers, i, s1.workers[i]);
    LeadsNowhere(Within, up, s1);
    var s' := OthersFinish(Within, up, s1, s1);
  }

  // ----- what a reconcile comes to -----

  /** The interval since the last time has passed. */
  ghost predicate Over(last: Option<int>, now: int, interval: int) {
    last.None? || now - last.value >= interval
  }

  /**
   * What a reconcile comes to before its drain round: it fails when the cloud cannot be discovered, and
   * with drift when cordoning failed throughout or when there is something to tag and tagging fails; it
   * completes the upgrade exactly when there is no drift; it waits for a drain round exactly when there
   * is drift, nothing failed, both intervals are over and, in eager mode, no batch member is InService
   * and the gate is open; and else it leaves the upgrade running.
   */
  lemma ReconcileOutcome(up: Upgrade, s: State, ch: Choice)
    requires Enabled(s, Reconcile(ch))
    ensures var s', mode := Apply(up, s, Reconcile(ch)), Defaulted(up.strategy).mode;
      var drift := exists i :: i in s.cloud.snap.group.instances && IsInstanceDrifted(s.cloud.snap, i);
      var serving := exists i :: i in ch.batch && i.lifecycle == InService;
      var tags := mode == "lazy" || (mode == "eager" && serving && ch.granted > 0);
      && (s'.status == Error <==> !ch.discovers || (drift && (!ch.cordons || (tags && !ch.tagWorks))))
      && (s'.status == Completed <==> ch.discovers && !drift)
      && (s'.status != Error && s'.status != Completed ==> s'.status == Running)
      && (s'.ctl.Waiting? <==>
            && ch.discovers && drift && ch.cordons && (tags ==> ch.tagWorks)
            && (mode == "eager" ==> !serving && DesiredReady(s.cloud.snap.group, ch.listed, up.gates))
            && Over(s.lastTermination, s.now, up.nodeInterval) && Over(s.lastDrain, s.now, up.drainDelay))
      && (s'.ctl.Waiting? ==> s'.ctl == Controller.Waiting(ch.batch, s.cloud.snap, ch.listed))
      && !s'.ctl.Terminating?
  {
    DriftMeans(s.cloud.snap);
    ServingMeans(ch.batch);
    assert LAZY[0] != EAGER[0];
  }

  lemma DriftMeans(s: Snapshot)
    ensures DriftedIds(s) == {} <==> !exists i :: i in s.group.instances && IsInstanceDrifted(s, i)
  {
    if i :| i in s.group.instances && IsInstanceDrifted(s, i) {
      assert i.id in DriftedIds(s);
    }
  }

  lemma ServingMeans(batch: seq<Instance>)
    ensures InServiceIds(batch) == [] <==> !exists i :: i in batch && i.lifecycle == InService
  {
    if i :| i in batch && i.lifecycle == InService {
      InServiceMember(batch, i.id);
    }
    if InServiceIds(batch) != [] {
      InServiceMember(batch, InServiceIds(batch)[0]);
    }
  }
}
