/**
 * One upgrade as a transition system: its reconciles, the drain goroutines that outlive them, the
 * wait group and error channel between the two, the clock, the tags and the persisted status.
 * Every API call may succeed or fail, and workers, clock and environment interleave freely.
 */
module Rotation {
  import opened Common
  import opened BatchSize
  import opened Fleet
  import opened Readiness
  import opened Selection
  import opened Status

  datatype Upgrade = Upgrade(
    strategy: Accepted,
    gates: Gates,
    nodeInterval: int,
    drainDelay: int,
    ignoreInSpec: Option<bool>,
    ignoreByDefault: bool)

  /** The resource's own setting takes precedence over the controller's. */
  predicate IgnoresDrainFailures(up: Upgrade) {
    if up.ignoreInSpec.Some? then up.ignoreInSpec.value else up.ignoreByDefault
  }

  // ----- drain goroutines -----

  /** Where a goroutine is; the Send positions block on the unbuffered channel. */
  datatype Pc =
    | PreDrain | SendPreDrain
    | Drain | SendDrain
    | PostDrain | SendPostDrain
    | PostWait | SendPostWait
    | Leaving | Exited
  {
    predicate Sending() {
      SendPreDrain? || SendDrain? || SendPostDrain? || SendPostWait?
    }
  }

  /** `drained` once the drain call returned without an unignored failure, `failed` once a failure was to be sent. */
  datatype Worker = Worker(id: InstanceId, pc: Pc, drained: bool, failed: bool)

  function Advance(w: Worker, ok: bool, ignore: bool): Worker
    requires !w.pc.Sending() && !w.pc.Exited?
  {
    match w.pc
    case PreDrain => if ok then w.(pc := Drain) else w.(pc := SendPreDrain, failed := true)
    case Drain => if ok || ignore then w.(pc := PostDrain, drained := true) else w.(pc := SendDrain, failed := true)
    case PostDrain => if ok then w.(pc := PostWait) else w.(pc := SendPostDrain, failed := true)
    case PostWait => if ok then w.(pc := Leaving) else w.(pc := SendPostWait, failed := true)
    case Leaving => w.(pc := Exited)
  }

  /** A delivered script error lets the goroutine go on; a delivered drain error makes it return. */
  function Delivered(w: Worker): Worker
    requires w.pc.Sending()
  {
    match w.pc
    case SendPreDrain => w.(pc := Drain)
    case SendDrain => w.(pc := Leaving)
    case SendPostDrain => w.(pc := PostWait)
    case SendPostWait => w.(pc := Leaving)
  }

  function Active(workers: seq<Worker>): nat {
    if workers == [] then 0 else (if workers[0].pc.Exited? then 0 else 1) + Active(workers[1..])
  }

  // ----- state -----

  datatype Controller =
    | Idle
    | Waiting(batch: seq<Instance>, seen: Snapshot, listed: seq<Node>)
    | Terminating(batch: seq<Instance>, seen: Snapshot, listed: seq<Node>, next: nat)

  datatype Event =
    | RoundStarted(time: int)
    | RoundFinished(time: int)
    | Terminated(time: int, id: InstanceId, reconcile: nat)

  datatype State = State(
    status: Status,
    now: int,
    lastTermination: Option<int>,
    lastDrain: Option<int>,
    cloud: Cloud,
    workers: seq<Worker>,
    group: nat,
    ctl: Controller,
    reconciles: nat,
    log: seq<Event>)

  /** Nothing recorded and no goroutine counted by the wait group. */
  ghost predicate Initial(s: State) {
    NewResource(s) && s.group == 0
  }

  /**
   * A resource that has not been reconciled. The wait group and the channel are kept by name and never
   * removed, so goroutines of an earlier resource of the name may be left over.
   */
  ghost predicate NewResource(s: State) {
    && !s.status.Finite()
    && s.ctl.Idle? && s.log == [] && s.lastTermination.None? && s.lastDrain.None?
    && s.group == Active(s.workers)
  }

  // ----- a reconcile up to the select -----

  /** How the calls of one reconcile turn out. */
  datatype Choice = Choice(
    discovers: bool,          // the cloud was discovered and the scaling group found
    batch: seq<Instance>,     // what selection returned
    tags: Tags,               // the state tags once selection and tagging are through
    cordons: bool,            // early cordon did not fail on every node
    granted: nat,             // how many replacements the budget allowed
    tagWorks: bool,
    listed: seq<Node>)        // the nodes the readiness gate counts

  datatype Verdict = Fail | Finish | Requeue | Proceed

  predicate StillWaiting(last: Option<int>, now: int, interval: int) {
    last.Some? && now - last.value < interval
  }

  function IntervalGate(up: Upgrade, s: State): Verdict {
    if StillWaiting(s.lastTermination, s.now, up.nodeInterval) then Requeue
    else if StillWaiting(s.lastDrain, s.now, up.drainDelay) then Requeue
    else Proceed
  }

  function UpgradeMode(up: Upgrade): Mode {
    ModeOf(Defaulted(up.strategy).mode)
  }

  function Decide(up: Upgrade, s: State, ch: Choice): Verdict {
    if !ch.discovers then Fail
    else if DriftedIds(s.cloud.snap) == {} then Finish
    else if !ch.cordons then Fail
    else match UpgradeMode(up)
      case Eager =>
        if InServiceIds(ch.batch) != [] then
          if ch.granted == 0 then Requeue else if !ch.tagWorks then Fail else Requeue
        else if !DesiredReady(s.cloud.snap.group, ch.listed, up.gates) then Requeue
        else IntervalGate(up, s)
      case Lazy =>
        if !ch.tagWorks then Fail else IntervalGate(up, s)
      case NoMode =>
        IntervalGate(up, s)
  }

  /** The batch members that have a node; only these are drained and terminated. */
  function WithNode(snap: Snapshot, batch: seq<Instance>): seq<Instance> {
    if batch == [] then [] else
      (if HasNode(snap, batch[0].id) then [batch[0]] else []) + WithNode(snap, batch[1..])
  }

  function Spawn(targets: seq<Instance>): seq<Worker> {
    seq(|targets|, i requires 0 <= i < |targets| => Worker(targets[i].id, PreDrain, false, false))
  }

  function Begin(up: Upgrade, s: State, ch: Choice): State {
    var s1 := s.(cloud := s.cloud.(tags := ch.tags), reconciles := s.reconciles + 1);
    match Decide(up, s, ch)
    case Fail => s1.(status := Error)
    case Finish => s1.(status := Completed)
    case Requeue => s1.(status := Running)
    case Proceed =>
      var s2 := s1.(status := Running, ctl := Waiting(ch.batch, s.cloud.snap, ch.listed));
      if s.group == 0 then
        var workers := Spawn(WithNode(s.cloud.snap, ch.batch));
        s2.(workers := workers, group := |workers|, log := s.log + [RoundStarted(s.now)])
      else s2
  }

  // ----- the other steps -----

  datatype Step =
    | Tick(seconds: nat)
    | Environment(cloud: Cloud)
    | Restart
    | Reconcile(choice: Choice)
    | Work(i: nat, ok: bool, tagWorks: bool)
    | ReceiveError(i: nat)
    | GroupDone
    | TimedOut
    | TerminateNext(ok: bool, untagWorks: bool, scriptOk: bool)

  /** What selection returns are members of the group (Selection.SelectTargets). */
  ghost predicate FromGroup(snap: Snapshot, batch: seq<Instance>) {
    forall i :: i in batch ==> i in snap.group.instances
  }

  ghost predicate Enabled(s: State, step: Step) {
    match step
    case Tick(_) => true
    case Environment(_) => true
    case Restart => s.ctl.Idle?
    case Reconcile(ch) => s.ctl.Idle? && !s.status.Finite() && FromGroup(s.cloud.snap, ch.batch)
    case Work(i, _, _) => i < |s.workers| && !s.workers[i].pc.Sending() && !s.workers[i].pc.Exited?
    case ReceiveError(i) => s.ctl.Waiting? && i < |s.workers| && s.workers[i].pc.Sending()
    case GroupDone => s.ctl.Waiting? && s.group == 0
    case TimedOut => s.ctl.Waiting?
    case TerminateNext(_, _, _) => s.ctl.Terminating?
  }

  function Worked(up: Upgrade, s: State, i: nat, ok: bool, tagWorks: bool): State
    requires i < |s.workers| && !s.workers[i].pc.Sending() && !s.workers[i].pc.Exited?
  {
    var w := s.workers[i];
    var w' := Advance(w, ok, IgnoresDrainFailures(up));
    s.(workers := s.workers[i := w'],
       group := if w'.pc.Exited? && s.group > 0 then s.group - 1 else s.group,
       cloud := if w'.pc.SendDrain? && tagWorks then s.cloud.(tags := s.cloud.tags[w.id := FailedDrain]) else s.cloud)
  }

  function TerminateOne(s: State, ok: bool, untagWorks: bool, scriptOk: bool): State
    requires s.ctl.Terminating?
  {
    var c := s.ctl;
    if c.next >= |c.batch| then s.(ctl := Idle)
    else
      var id := c.batch[c.next].id;
      if !HasNode(c.seen, id) then s.(ctl := c.(next := c.next + 1))
      else if !ok then s.(ctl := Idle)
      else
        var s1 := s.(cloud := if untagWorks then s.cloud.(tags := UntagInProgress(s.cloud.tags, {id})) else s.cloud,
                     lastTermination := Some(s.now),
                     log := s.log + [Event.Terminated(s.now, id, s.reconciles)]);
        if !scriptOk then s1.(status := Error, ctl := Idle) else s1.(ctl := c.(next := c.next + 1))
  }

  ghost function Apply(up: Upgrade, s: State, step: Step): State
    requires Enabled(s, step)
  {
    match step
    case Tick(d) => s.(now := s.now + d)
    case Environment(cloud) => s.(cloud := cloud)
    case Restart => s.(workers := [], group := 0)
    case Reconcile(ch) => Begin(up, s, ch)
    case Work(i, ok, tagWorks) => Worked(up, s, i, ok, tagWorks)
    case ReceiveError(i) => s.(workers := s.workers[i := Delivered(s.workers[i])], status := Error, ctl := Idle)
    case GroupDone =>
      s.(lastDrain := Some(s.now), log := s.log + [RoundFinished(s.now)],
         ctl := Controller.Terminating(s.ctl.batch, s.ctl.seen, s.ctl.listed, 0))
    case TimedOut => s.(ctl := Idle)
    case TerminateNext(ok, untagWorks, scriptOk) => TerminateOne(s, ok, untagWorks, scriptOk)
  }

  ghost predicate IsPath(up: Upgrade, trace: seq<State>, steps: seq<Step>) {
    && |trace| == |steps| + 1
    && forall i :: 0 <= i < |steps| ==> Enabled(trace[i], steps[i]) && trace[i + 1] == Apply(up, trace[i], steps[i])
  }

  ghost predicate IsRun(up: Upgrade, trace: seq<State>, steps: seq<Step>) {
    IsPath(up, trace, steps) && Initial(trace[0])
  }

  // ----- drain safety -----

  ghost predicate WorkerSafe(w: Worker, status: Status) {
    && (w.failed && status != Error ==> w.pc.Sending())
    && (w.pc.Sending() ==> w.failed)
    && (!w.failed && w.pc != PreDrain && w.pc != Drain ==> w.drained)
  }

  /** Goroutines that have all exited by the time of a new round are of no account. */
  ghost predicate Safe(s: State) {
    && s.group == Active(s.workers)
    && (s.group > 0 || !s.ctl.Idle? ==> forall i :: 0 <= i < |s.workers| ==> WorkerSafe(s.workers[i], s.status))
    && (!s.ctl.Idle? ==> s.status == Running)
    && (s.ctl.Terminating? ==> s.group == 0)
  }

  lemma {:induction false} ActiveUpdate(ws: seq<Worker>, i: nat, w: Worker)
    requires i < |ws|
    ensures Active(ws[i := w]) ==
            Active(ws) - (if ws[i].pc.Exited? then 0 else 1) + (if w.pc.Exited? then 0 else 1)
  {
    if i == 0 {
      assert ws[i := w][1..] == ws[1..];
    } else {
      ActiveUpdate(ws[1..], i - 1, w);
      assert ws[i := w][1..] == ws[1..][i - 1 := w];
    }
  }

  lemma {:induction false} ActiveZero(ws: seq<Worker>)
    ensures Active(ws) == 0 <==> forall i :: 0 <= i < |ws| ==> ws[i].pc.Exited?
  {
    if ws != [] {
      ActiveZero(ws[1..]);
      assert forall i :: 0 < i < |ws| ==> ws[i] == ws[1..][i - 1];
      assert forall i :: 0 <= i < |ws[1..]| ==> ws[1..][i] == ws[i + 1];
    }
  }

  lemma {:induction false} ActiveSpawn(ws: seq<Worker>)
    requires forall i :: 0 <= i < |ws| ==> !ws[i].pc.Exited?
    ensures Active(ws) == |ws|
  {
    if ws != [] {
      ActiveSpawn(ws[1..]);
    }
  }

  lemma SafeWork(up: Upgrade, s: State, i: nat, ok: bool, tagWorks: bool)
    requires Safe(s) && Enabled(s, Work(i, ok, tagWorks))
    ensures Safe(Worked(up, s, i, ok, tagWorks))
  {
    ActiveUpdate(s.workers, i, Advance(s.workers[i], ok, IgnoresDrainFailures(up)));
  }

  lemma SafeDelivery(s: State, i: nat)
    requires Safe(s) && Enabled(s, ReceiveError(i))
    ensures Safe(s.(workers := s.workers[i := Delivered(s.workers[i])], status := Error, ctl := Idle))
  {
    ActiveUpdate(s.workers, i, Delivered(s.workers[i]));
  }

  /** A reconcile leaves the round alone, or starts one when none is open and it gets that far. */
  lemma BeginShape(up: Upgrade, s: State, ch: Choice)
    requires s.ctl.Idle?
    ensures var s', starts := Begin(up, s, ch), s.group == 0 && Decide(up, s, ch) == Proceed;
      && s'.workers == (if starts then Spawn(WithNode(s.cloud.snap, ch.batch)) else s.workers)
      && s'.group == (if starts then |s'.workers| else s.group)
      && s'.cloud == s.cloud.(tags := ch.tags) && s'.lastDrain == s.lastDrain
      && s'.log == (if starts then s.log + [RoundStarted(s.now)] else s.log)
      && match Decide(up, s, ch) {
           case Fail => s'.status == Error && s'.ctl.Idle?
           case Finish => s'.status == Completed && s'.ctl.Idle?
           case Requeue => s'.status == Running && s'.ctl.Idle?
           case Proceed => s'.status == Running && s'.ctl == Controller.Waiting(ch.batch, s.cloud.snap, ch.listed)
         }
  {
  }

  lemma SafeBegin(up: Upgrade, s: State, ch: Choice)
    requires Safe(s) && Enabled(s, Reconcile(ch))
    ensures Safe(Begin(up, s, ch))
  {
    BeginShape(up, s, ch);
    if s.group == 0 && Decide(up, s, ch) == Proceed {
      SpawnSafe(WithNode(s.cloud.snap, ch.batch));
    }
  }

  lemma SpawnSafe(targets: seq<Instance>)
    ensures Active(Spawn(targets)) == |Spawn(targets)|
    ensures forall i :: 0 <= i < |Spawn(targets)| ==> WorkerSafe(Spawn(targets)[i], Running)
  {
    ActiveSpawn(Spawn(targets));
  }

  lemma SafeStep(up: Upgrade, s: State, step: Step)
    requires Safe(s) && Enabled(s, step)
    ensures Safe(Apply(up, s, step))
  {
    match step
    case Work(i, ok, tagWorks) => SafeWork(up, s, i, ok, tagWorks);
    case ReceiveError(i) => SafeDelivery(s, i);
    case Reconcile(ch) => SafeBegin(up, s, ch);
    case _ =>
  }

  lemma {:induction false} SafeRun(up: Upgrade, trace: seq<State>, steps: seq<Step>, n: nat)
    requires IsRun(up, trace, steps) && n < |trace|
    ensures Safe(trace[n])
  {
    if n > 0 {
      SafeRun(up, trace, steps, n - 1);
      SafeStep(up, trace[n - 1], steps[n - 1]);
    }
  }

  /**
   * In every state of every run: a pending error and a finished wait group never coincide, so the
   * select cannot choose between them; and when the terminate loop is on, every goroutine of the
   * round has exited, its drain was run and no script or unignored drain of the round failed.
   */
  lemma DrainSafety(up: Upgrade, trace: seq<State>, steps: seq<Step>, n: nat)
    requires IsRun(up, trace, steps) && n < |trace|
    ensures forall i :: !(Enabled(trace[n], ReceiveError(i)) && Enabled(trace[n], GroupDone))
    ensures trace[n].ctl.Terminating? ==>
      forall w :: w in trace[n].workers ==> w.pc.Exited? && w.drained && !w.failed
  {
    SafeRun(up, trace, steps, n);
    ActiveZero(trace[n].workers);
  }

  // ----- blocked goroutines -----

  ghost predicate Counted(s: State) {
    s.group == Active(s.workers) && (s.ctl.Terminating? ==> s.group == 0)
  }

  lemma CountedStep(up: Upgrade, s: State, step: Step)
    requires Counted(s) && Enabled(s, step)
    ensures Counted(Apply(up, s, step))
  {
    match step
    case Work(i, ok, tagWorks) => ActiveUpdate(s.workers, i, Advance(s.workers[i], ok, IgnoresDrainFailures(up)));
    case ReceiveError(i) => ActiveUpdate(s.workers, i, Delivered(s.workers[i]));
    case Reconcile(ch) =>
      BeginShape(up, s, ch);
      ActiveSpawn(Spawn(WithNode(s.cloud.snap, ch.batch)));
    case _ =>
  }

  lemma {:induction false} CountedRun(up: Upgrade, trace: seq<State>, steps: seq<Step>, n: nat)
    requires IsPath(up, trace, steps) && NewResource(trace[0]) && n < |trace|
    ensures Counted(trace[n])
  {
    if n > 0 {
      CountedRun(up, trace, steps, n - 1);
      CountedStep(up, trace[n - 1], steps[n - 1]);
    }
  }

  /**
   * While an error waits to be delivered no drain round starts and nothing is terminated, whichever
   * resource of the name the blocked goroutine belongs to.
   */
  lemma PendingErrorBlocks(up: Upgrade, trace: seq<State>, steps: seq<Step>, n: nat)
    requires IsPath(up, trace, steps) && NewResource(trace[0]) && n < |steps|
    requires exists w :: w in trace[n].workers && w.pc.Sending()
    ensures steps[n] != Restart ==>
      trace[n + 1].log == trace[n].log && |trace[n + 1].workers| == |trace[n].workers|
  {
    CountedRun(up, trace, steps, n);
    ActiveZero(trace[n].workers);
  }

  // ----- status -----

  /**
   * The status only moves forward along every run, finite states are final, and completed is entered
   * only by a reconcile that saw no drifted instance.
   */
  lemma StatusStep(up: Upgrade, s: State, step: Step)
    requires Safe(s) && Enabled(s, step)
    ensures s.status.MayBecome(Apply(up, s, step).status)
    ensures Apply(up, s, step).status == Completed && s.status != Completed ==>
      step.Reconcile? && step.choice.discovers && DriftedIds(s.cloud.snap) == {}
  {
  }

  lemma StatusForward(up: Upgrade, trace: seq<State>, steps: seq<Step>, m: nat, n: nat)
    requires IsRun(up, trace, steps) && m <= n < |trace|
    ensures trace[m].status.MayBecome(trace[n].status)
  {
    var statuses := seq(|trace|, i requires 0 <= i < |trace| => trace[i].status);
    forall i | m <= i < n
      ensures statuses[i].MayBecome(statuses[i + 1])
    {
      SafeRun(up, trace, steps, i);
      StatusStep(up, trace[i], steps[i]);
    }
    ForwardThroughout(statuses, m, n);
  }

  /** A run that is completed got there by a reconcile that saw a snapshot without drift. */
  lemma {:induction false} CompletedWithoutDrift(up: Upgrade, trace: seq<State>, steps: seq<Step>, n: nat)
    requires IsRun(up, trace, steps) && n < |trace| && trace[n].status == Completed
    ensures exists m ::
      && 0 <= m < n && steps[m].Reconcile? && DriftedIds(trace[m].cloud.snap) == {}
      && trace[m].status != Completed && trace[m + 1].status == Completed
  {
    if n > 0 {
      SafeRun(up, trace, steps, n - 1);
      StatusStep(up, trace[n - 1], steps[n - 1]);
      if trace[n - 1].status == Completed {
        CompletedWithoutDrift(up, trace, steps, n - 1);
      } else {
        assert trace[n - 1 + 1].status == Completed;
      }
    }
  }

  // ----- eager capacity -----

  ghost predicate Gated(up: Upgrade, s: State) {
    !s.ctl.Idle? ==>
      && FromGroup(s.ctl.seen, s.ctl.batch)
      && (UpgradeMode(up) == Eager ==>
            DesiredReady(s.ctl.seen.group, s.ctl.listed, up.gates) && InServiceIds(s.ctl.batch) == [])
  }

  lemma GatedStep(up: Upgrade, s: State, step: Step)
    requires Gated(up, s) && Enabled(s, step)
    ensures Gated(up, Apply(up, s, step))
  {
  }

  lemma {:induction false} GatedRun(up: Upgrade, trace: seq<State>, steps: seq<Step>, n: nat)
    requires IsRun(up, trace, steps) && n < |trace|
    ensures Gated(up, trace[n])
  {
    if n > 0 {
      GatedRun(up, trace, steps, n - 1);
      GatedStep(up, trace[n - 1], steps[n - 1]);
    }
  }

  /**
   * Whenever an eager reconcile drains or terminates, no InService member of the group it saw is in the
   * batch, the group has its full desired capacity InService once the batch is taken away, and all of
   * that capacity is ready exactly when the gate counted no instance twice.
   */
  lemma EagerCapacity(up: Upgrade, trace: seq<State>, steps: seq<Step>, n: nat)
    requires IsRun(up, trace, steps) && n < |trace| && UpgradeMode(up) == Eager && !trace[n].ctl.Idle?
    requires DistinctIds(trace[n].ctl.seen.group.instances)
    ensures var c := trace[n].ctl;
      var left := Without(c.seen.group.instances, Ids(c.batch));
      && (forall i :: i in c.seen.group.instances && i.lifecycle == InService ==> i.id !in Ids(c.batch))
      && |InServiceIds(left)| == c.seen.group.desired
      && (AllCovered(left, c.listed, up.gates) <==> CountedOnce(c.seen.group, c.listed, up.gates))
  {
    GatedRun(up, trace, steps, n);
    CapacityWithoutBatch(trace[n].ctl.seen.group, trace[n].ctl.listed, up.gates, trace[n].ctl.batch);
  }

  // ----- intervals -----

  /** Both events are terminations of different reconciles. */
  predicate Apart(a: Event, b: Event) {
    a.Terminated? && b.Terminated? && a.reconcile != b.reconcile
  }

  ghost predicate Spaced(up: Upgrade, log: seq<Event>) {
    forall i, j :: 0 <= i < j < |log| ==>
      && (Apart(log[i], log[j]) ==> log[j].time - log[i].time >= up.nodeInterval)
      && (log[i].RoundFinished? && log[j].RoundStarted? ==> log[j].time - log[i].time >= up.drainDelay)
  }

  ghost predicate Recorded(s: State, e: Event) {
    && e.time <= s.now
    && (e.Terminated? ==> s.lastTermination.Some? && e.time <= s.lastTermination.value && e.reconcile <= s.reconciles)
    && (e.RoundFinished? ==> s.lastDrain.Some? && e.time <= s.lastDrain.value)
  }

  ghost predicate Timely(up: Upgrade, s: State) {
    && Spaced(up, s.log)
    && (forall e :: e in s.log ==> Recorded(s, e))
    && (!s.ctl.Idle? ==> forall e :: e in s.log && e.Terminated? && e.reconcile < s.reconciles ==>
          s.now - e.time >= up.nodeInterval)
  }

  lemma SpacedSnoc(up: Upgrade, log: seq<Event>, e: Event)
    requires Spaced(up, log)
    requires forall a :: a in log && Apart(a, e) ==> e.time - a.time >= up.nodeInterval
    requires forall a :: a in log && a.RoundFinished? && e.RoundStarted? ==> e.time - a.time >= up.drainDelay
    ensures Spaced(up, log + [e])
  {
    forall i | 0 <= i < |log|
      ensures (log + [e])[i] in log
    {
      assert (log + [e])[i] == log[i];
    }
  }

  lemma TimelyTermination(up: Upgrade, s: State, ok: bool, untagWorks: bool, scriptOk: bool)
    requires Timely(up, s) && s.ctl.Terminating?
    ensures Timely(up, TerminateOne(s, ok, untagWorks, scriptOk))
  {
    if s.ctl.next < |s.ctl.batch| {
      SpacedSnoc(up, s.log, Event.Terminated(s.now, s.ctl.batch[s.ctl.next].id, s.reconciles));
    }
  }

  lemma TimelyBegin(up: Upgrade, s: State, ch: Choice)
    requires Timely(up, s) && s.ctl.Idle?
    ensures Timely(up, Begin(up, s, ch))
  {
    SpacedIfStarted(up, s, ch);
  }

  lemma TimelyDone(up: Upgrade, s: State)
    requires Timely(up, s) && Enabled(s, GroupDone)
    ensures Timely(up, Apply(up, s, GroupDone))
  {
    SpacedSnoc(up, s.log, RoundFinished(s.now));
  }

  lemma TimelyStep(up: Upgrade, s: State, step: Step)
    requires Timely(up, s) && Enabled(s, step)
    ensures Timely(up, Apply(up, s, step))
  {
    match step
    case Reconcile(ch) => TimelyBegin(up, s, ch);
    case GroupDone => TimelyDone(up, s);
    case TerminateNext(ok, untagWorks, scriptOk) => TimelyTermination(up, s, ok, untagWorks, scriptOk);
    case _ =>
  }

  lemma SpacedIfStarted(up: Upgrade, s: State, ch: Choice)
    requires Timely(up, s)
    ensures Decide(up, s, ch) == Proceed ==> Spaced(up, s.log + [RoundStarted(s.now)])
    ensures Decide(up, s, ch) == Proceed ==>
      forall e :: e in s.log && e.Terminated? ==> s.now - e.time >= up.nodeInterval
  {
    if Decide(up, s, ch) == Proceed {
      SpacedSnoc(up, s.log, RoundStarted(s.now));
    }
  }

  lemma {:induction false} TimelyRun(up: Upgrade, trace: seq<State>, steps: seq<Step>, n: nat)
    requires IsRun(up, trace, steps) && n < |trace|
    ensures Timely(up, trace[n])
  {
    if n > 0 {
      TimelyRun(up, trace, steps, n - 1);
      TimelyStep(up, trace[n - 1], steps[n - 1]);
    }
  }

  /**
   * Over every run, including failed terminations, timeouts, restarts between reconciles and any
   * clock that does not go back: terminations of different reconciles are at least nodeInterval apart,
   * and a drain round starts no sooner than drainDelay after any earlier one that completed.
   */
  lemma IntervalsKept(up: Upgrade, trace: seq<State>, steps: seq<Step>, n: nat)
    requires IsRun(up, trace, steps) && n < |trace|
    ensures Spaced(up, trace[n].log)
  {
    TimelyRun(up, trace, steps, n);
  }
}
