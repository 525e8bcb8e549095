/** Continuations: which states the transition system can get to from a given one, by which kinds of steps. */
module Continuation {
  import opened Fleet
  import opened Selection
  import opened Rotation
  import opened QuietRun
  import opened Convergence
  import opened EagerRun

  /**
   * `Own`: no step of the environment, and every reconcile selects and tags as the code does.
   * `Within`: what may happen after a reconcile and before another one or a restart.
   * `Lazily`: every call succeeds and the environment only refills the group.
   * `Eagerly`: every call succeeds and the environment puts tagged instances on standby and refills.
   */
  datatype Regime = Own | Within | Lazily | Eagerly

  ghost predicate Allowed(g: Regime, up: Upgrade, s: State, step: Step) {
    match g
    case Own => !step.Environment? && (step.Reconcile? ==> SelectsAndTags(up, s, step.choice))
    case Within => !step.Reconcile? && !step.Restart?
    case Lazily => LazyStep(up, s, step)
    case Eagerly => EagerStep(up, s, step)
  }

  ghost predicate IsContinuation(g: Regime, up: Upgrade, trace: seq<State>, steps: seq<Step>) {
    && IsPath(up, trace, steps)
    && forall i :: 0 <= i < |steps| ==> Allowed(g, up, trace[i], steps[i])
  }

  ghost predicate Leads(g: Regime, up: Upgrade, s: State, s': State) {
    exists trace: seq<State>, steps: seq<Step> ::
      IsContinuation(g, up, trace, steps) && trace[0] == s && trace[|steps|] == s'
  }

  lemma LeadsNowhere(g: Regime, up: Upgrade, s: State)
    ensures Leads(g, up, s, s)
  {
    var trace, steps: seq<Step> := [s], [];
    assert IsContinuation(g, up, trace, steps) && trace[0] == s && trace[|steps|] == s;
  }

  lemma LeadsOn(g: Regime, up: Upgrade, s0: State, s: State, step: Step)
    requires Leads(g, up, s0, s) && Enabled(s, step) && Allowed(g, up, s, step)
    ensures Leads(g, up, s0, Apply(up, s, step))
  {
    var trace: seq<State>, steps: seq<Step> :|
      IsContinuation(g, up, trace, steps) && trace[0] == s0 && trace[|steps|] == s;
    var s' := Apply(up, s, step);
    OneMore(g, up, trace, steps, step);
    var trace', steps' := trace + [s'], steps + [step];
    assert IsContinuation(g, up, trace', steps') && trace'[0] == s0 && trace'[|steps'|] == s';
  }

  lemma OneMore(g: Regime, up: Upgrade, trace: seq<State>, steps: seq<Step>, step: Step)
    requires IsContinuation(g, up, trace, steps)
    requires Enabled(trace[|steps|], step) && Allowed(g, up, trace[|steps|], step)
    ensures IsContinuation(g, up, trace + [Apply(up, trace[|steps|], step)], steps + [step])
  {
    var trace', steps' := trace + [Apply(up, trace[|steps|], step)], steps + [step];
    forall i | 0 <= i < |steps'|
      ensures Enabled(trace'[i], steps'[i]) && trace'[i + 1] == Apply(up, trace'[i], steps'[i])
      ensures Allowed(g, up, trace'[i], steps'[i])
    {
      if i < |steps| {
        assert Enabled(trace[i], steps[i]) && Allowed(g, up, trace[i], steps[i]);
        assert trace'[i] == trace[i] && trace'[i + 1] == trace[i + 1] && steps'[i] == steps[i];
      } else {
        assert trace'[i] == trace[|steps|] && steps'[i] == step;
      }
    }
  }

  // ----- letting every goroutine finish -----

  function Togo(w: Worker): nat {
    match w.pc
    case PreDrain => 5
    case Drain => 4
    case PostDrain => 3
    case PostWait => 2
    case Leaving => 1
    case _ => 0
  }

  function TogoAll(ws: seq<Worker>): nat {
    if ws == [] then 0 else TogoAll(ws[..|ws| - 1]) + Togo(ws[|ws| - 1])
  }

  lemma {:induction false} TogoUpdate(ws: seq<Worker>, i: nat, w: Worker)
    requires i < |ws|
    ensures TogoAll(ws[i := w]) == TogoAll(ws) - Togo(ws[i]) + Togo(w)
  {
    if i == |ws| - 1 {
      assert ws[i := w][..i] == ws[..i];
    } else {
      TogoUpdate(ws[..|ws| - 1], i, w);
      assert ws[i := w][..|ws| - 1] == ws[..|ws| - 1][i := w];
    }
  }

  ghost predicate NoneBlocked(ws: seq<Worker>) {
    forall w :: w in ws ==> !w.pc.Sending()
  }

  ghost predicate SameIds(a: seq<Worker>, b: seq<Worker>) {
    |a| == |b| && forall i :: 0 <= i < |a| ==> a[i].id == b[i].id
  }

  /** One successful step of a goroutine. */
  lemma OneWorks(g: Regime, up: Upgrade, s0: State, s: State, i: nat) returns (s': State)
    requires Leads(g, up, s0, s) && s.group == Active(s.workers) && NoneBlocked(s.workers)
    requires i < |s.workers| && !s.workers[i].pc.Exited?
    ensures Leads(g, up, s0, s') && s' == s.(workers := s'.workers, group := s'.group)
    ensures s'.group == Active(s'.workers) && NoneBlocked(s'.workers) && SameIds(s'.workers, s.workers)
    ensures TogoAll(s'.workers) < TogoAll(s.workers)
  {
    s' := WorkerSteps(up, s, i);
    LeadsOn(g, up, s0, s, Work(i, true, true));
  }

  lemma WorkerSteps(up: Upgrade, s: State, i: nat) returns (s': State)
    requires s.group == Active(s.workers) && NoneBlocked(s.workers) && i < |s.workers| && !s.workers[i].pc.Exited?
    ensures Enabled(s, Work(i, true, true)) && s' == Apply(up, s, Work(i, true, true))
    ensures !Advance(s.workers[i], true, IgnoresDrainFailures(up)).pc.Sending()
    ensures s' == s.(workers := s'.workers, group := s'.group)
    ensures s'.group == Active(s'.workers) && NoneBlocked(s'.workers) && SameIds(s'.workers, s.workers)
    ensures TogoAll(s'.workers) < TogoAll(s.workers)
  {
    var w := s.workers[i];
    assert w in s.workers;
    var w' := Advances(w, IgnoresDrainFailures(up));
    s' := Worked(up, s, i, true, true);
    ActiveUpdate(s.workers, i, w');
    TogoUpdate(s.workers, i, w');
    StillFree(s.workers, i, w');
  }

  lemma Advances(w: Worker, ignore: bool) returns (w': Worker)
    requires !w.pc.Sending() && !w.pc.Exited?
    ensures w' == Advance(w, true, ignore) && w'.id == w.id && !w'.pc.Sending() && !w'.pc.SendDrain?
    ensures Togo(w') < Togo(w)
  {
    w' := Advance(w, true, ignore);
  }

  lemma StillFree(ws: seq<Worker>, i: nat, w: Worker)
    requires NoneBlocked(ws) && i < |ws| && !w.pc.Sending() && w.id == ws[i].id
    ensures NoneBlocked(ws[i := w]) && SameIds(ws[i := w], ws)
  {
    forall v | v in ws[i := w]
      ensures !v.pc.Sending()
    {
      assert v == w || v in ws;
    }
  }

  /** With none blocked, all goroutines may finish and nothing else happen. */
  lemma {:induction false} AllFinish(g: Regime, up: Upgrade, s0: State, s: State) returns (s': State)
    requires Leads(g, up, s0, s) && s.group == Active(s.workers) && NoneBlocked(s.workers)
    ensures Leads(g, up, s0, s') && s' == s.(workers := s'.workers, group := 0) && SameIds(s'.workers, s.workers)
    decreases TogoAll(s.workers)
  {
    ActiveZero(s.workers);
    if s.group == 0 {
      s' := s;
    } else {
      var i :| 0 <= i < |s.workers| && !s.workers[i].pc.Exited?;
      var mid := OneWorks(g, up, s0, s, i);
      s' := AllFinish(g, up, s0, mid);
    }
  }

  lemma SameWorkerIds(a: seq<Worker>, b: seq<Worker>)
    requires SameIds(a, b)
    ensures WorkerIds(a) == WorkerIds(b)
  {
    forall w | w in a
      ensures w.id in WorkerIds(b)
    {
      var i :| 0 <= i < |a| && a[i] == w;
      assert b[i] in b;
    }
    forall w | w in b
      ensures w.id in WorkerIds(a)
    {
      var i :| 0 <= i < |b| && b[i] == w;
      assert a[i] in a;
    }
  }

  /** While a reconcile waits, the goroutines that are there may all finish, and termination begins. */
  lemma OthersFinish(g: Regime, up: Upgrade, s0: State, s: State) returns (s': State)
    requires Leads(g, up, s0, s) && s.ctl.Waiting? && s.group == Active(s.workers) && NoneBlocked(s.workers)
    ensures Leads(g, up, s0, s') && s'.ctl == Controller.Terminating(s.ctl.batch, s.ctl.seen, s.ctl.listed, 0)
    ensures WorkerIds(s'.workers) == WorkerIds(s.workers) && s'.log == s.log + [RoundFinished(s.now)]
    ensures s'.cloud == s.cloud
  {
    var s2 := AllFinish(g, up, s0, s);
    LeadsOn(g, up, s0, s2, GroupDone);
    s' := Apply(up, s2, GroupDone);
    SameWorkerIds(s2.workers, s.workers);
  }

  // ----- the terminate loop -----

  /** Every instance of the rest of the batch that has a node is among the given ones. */
  ghost predicate RestAmong(ctl: Controller, ids: set<InstanceId>)
    requires ctl.Terminating?
  {
    forall k :: ctl.next <= k < |ctl.batch| && HasNode(ctl.seen, ctl.batch[k].id) ==> ctl.batch[k].id in ids
  }

  /** The terminate loop may run to its end: all that is left of its batch is terminated, and no round is added. */
  lemma {:induction false} LoopRuns(g: Regime, up: Upgrade, s0: State, s: State) returns (s': State)
    requires Leads(g, up, s0, s) && s.ctl.Terminating?
    ensures Leads(g, up, s0, s') && s'.ctl.Idle? && Rounds(s'.log) == Rounds(s.log)
    ensures s'.cloud.snap == s.cloud.snap && TerminatedIds(s.log) <= TerminatedIds(s'.log)
    ensures RestAmong(s.ctl, TerminatedIds(s'.log))
    decreases if s.ctl.next < |s.ctl.batch| then |s.ctl.batch| - s.ctl.next else 0
  {
    var t := LoopGoes(g, up, s0, s);
    if s.ctl.next < |s.ctl.batch| {
      s' := LoopRuns(g, up, s0, t);
      RestBack(s.ctl, TerminatedIds(t.log), TerminatedIds(s'.log));
    } else {
      s' := t;
    }
  }

  lemma RestBack(ctl: Controller, ids: set<InstanceId>, ids': set<InstanceId>)
    requires ctl.Terminating? && ctl.next < |ctl.batch| && ids <= ids'
    requires HasNode(ctl.seen, ctl.batch[ctl.next].id) ==> ctl.batch[ctl.next].id in ids
    requires RestAmong(ctl.(next := ctl.next + 1), ids')
    ensures RestAmong(ctl, ids')
  {
  }

  lemma LoopGoes(g: Regime, up: Upgrade, s0: State, s: State) returns (s': State)
    requires Leads(g, up, s0, s) && s.ctl.Terminating?
    ensures Leads(g, up, s0, s') && LoopGoesOn(s, s')
  {
    assert Allowed(g, up, s, TerminateNext(true, true, true));
    LeadsOn(g, up, s0, s, TerminateNext(true, true, true));
    s' := TerminateOne(s, true, true, true);
    LoopLogs(s);
  }

  /** What one successful round of the loop leaves. */
  ghost predicate LoopGoesOn(s: State, t: State)
    requires s.ctl.Terminating?
  {
    var c := s.ctl;
    && Rounds(t.log) == Rounds(s.log) && TerminatedIds(s.log) <= TerminatedIds(t.log) && t.cloud.snap == s.cloud.snap
    && (if c.next < |c.batch| then t.ctl == c.(next := c.next + 1) else t.ctl.Idle?)
    && (c.next < |c.batch| && HasNode(c.seen, c.batch[c.next].id) ==> c.batch[c.next].id in TerminatedIds(t.log))
  }

  lemma LoopLogs(s: State)
    requires s.ctl.Terminating?
    ensures LoopGoesOn(s, TerminateOne(s, true, true, true))
  {
    if s.ctl.next < |s.ctl.batch| {
      LogSnoc(s.log, Event.Terminated(s.now, s.ctl.batch[s.ctl.next].id, s.reconciles));
    }
  }
}
