/**
 * Admission control: which upgrades may run together. A reconcile is one atomic step; between
 * reconciles resources come and go and the controller may lose its memory.
 */
module Admission {
  import opened Common
  import opened Status

  datatype Resource = Resource(asg: string, status: Status, deleting: bool)

  /** `admitted` maps an upgrade to its scaling group; it does not survive a restart, `resources` do. */
  datatype State = State(admitted: map<string, string>, resources: map<string, Resource>)

  /** How the parts of one reconcile turn out; `result` is the status RotateNodes leaves. */
  datatype Inputs = Inputs(
    getWorks: bool, valid: bool, locked: bool, listWorks: bool, nodesKnown: bool, result: Status)

  // ----- one reconcile -----

  function RunningOnes(resources: map<string, Resource>): set<string> {
    set n | n in resources && resources[n].status == Running
  }

  /** An empty map may mean a restart: take up every resource whose status says running. */
  function Reloaded(s: State): map<string, string> {
    if s.admitted == map[] then map n | n in RunningOnes(s.resources) :: s.resources[n].asg else s.admitted
  }

  predicate TakenByOther(admitted: map<string, string>, name: string, asg: string) {
    exists n :: n in admitted && n != name && EqualFold(admitted[n], asg)
  }

  function WithStatus(s: State, name: string, status: Status): State
    requires name in s.resources
  {
    s.(resources := s.resources[name := s.resources[name].(status := status)])
  }

  function Waiting(status: Status): Status {
    if status == Unset then Init else status
  }

  function ReconcileStep(maxParallel: nat, s: State, name: string, o: Inputs): State {
    if !o.getWorks then s
    else if name !in s.resources || s.resources[name].deleting || s.resources[name].status.Finite() then
      s.(admitted := s.admitted - {name})
    else if !o.valid then s
    else
      var r := s.resources[name];
      var waiting := WithStatus(s, name, Waiting(r.status));
      if o.locked || (s.admitted == map[] && !o.listWorks) then waiting
      else
        var admitted := Reloaded(s);
        if TakenByOther(admitted, name, r.asg) || (|admitted| >= maxParallel && name !in admitted) then
          waiting.(admitted := admitted)
        else
          var admitted' := WithEntry(admitted, name, r.asg);
          if !o.nodesKnown then waiting.(admitted := admitted')
          else WithStatus(s, name, o.result).(admitted := admitted')
  }

  /** The reconciler, its admission map, and the API server it reads and writes. */
  class Reconciler {
    const maxParallel: nat
    var admissionMap: map<string, string>
    var resources: map<string, Resource>

    function Value(): State
      reads this
    {
      State(admissionMap, resources)
    }

    constructor (maxParallel: nat, s: State)
      ensures this.maxParallel == maxParallel && Value() == s
    {
      this.maxParallel := maxParallel;
      admissionMap, resources := s.admitted, s.resources;
    }

    /** Counting a concurrent map by ranging over it. */
    method AdmittedCount() returns (count: nat)
      ensures count == |admissionMap|
    {
      count := 0;
      var left := admissionMap.Keys;
      while left != {}
        invariant count + |left| == |admissionMap.Keys|
        decreases left
      {
        var n :| n in left;
        left := left - {n};
        count := count + 1;
      }
    }

    method Reload()
      requires admissionMap == map[]
      modifies this`admissionMap
      ensures admissionMap == Reloaded(old(Value()))
    {
      var left := RunningOnes(resources);
      while left != {}
        invariant left <= RunningOnes(resources)
        invariant admissionMap == map n | n in RunningOnes(resources) - left :: resources[n].asg
        decreases left
      {
        var n :| n in left;
        admissionMap := admissionMap[n := resources[n].asg];
        left := left - {n};
      }
    }

    method TakenElsewhere(name: string, asg: string) returns (taken: bool)
      ensures taken <==> TakenByOther(admissionMap, name, asg)
    {
      var left := admissionMap.Keys;
      while left != {}
        invariant left <= admissionMap.Keys
        invariant forall n :: n in admissionMap && n !in left ==> n == name || !EqualFold(admissionMap[n], asg)
        decreases left
      {
        var n :| n in left;
        left := left - {n};
        if EqualFold(admissionMap[n], asg) && n != name {
          return true;
        }
      }
      return false;
    }

    method SetStatus(name: string, status: Status)
      requires name in resources
      modifies this`resources
      ensures Value() == WithStatus(old(Value()), name, status)
    {
      resources := resources[name := resources[name].(status := status)];
    }

    method Reconcile(name: string, o: Inputs)
      modifies this
      ensures Value() == ReconcileStep(maxParallel, old(Value()), name, o)
    {
      if !o.getWorks {
        return;
      }
      if name !in resources || resources[name].deleting || resources[name].status.Finite() {
        admissionMap := admissionMap - {name};
        return;
      }
      if !o.valid {
        return;
      }
      var r := resources[name];
      var waiting := Waiting(r.status);
      if o.locked {
        SetStatus(name, waiting);
        return;
      }
      var count := AdmittedCount();
      if count == 0 {
        assert admissionMap == map[];
        if !o.listWorks {
          SetStatus(name, waiting);
          return;
        }
        Reload();
      }
      var taken := TakenElsewhere(name, r.asg);
      if taken {
        SetStatus(name, waiting);
        return;
      }
      count := AdmittedCount();
      if count >= maxParallel && name !in admissionMap {
        SetStatus(name, waiting);
        return;
      }
      if name !in admissionMap {
        admissionMap := admissionMap[name := r.asg];
      }
      if !o.nodesKnown {
        SetStatus(name, waiting);
        return;
      }
      SetStatus(name, o.result);
    }
  }

  // ----- runs -----

  datatype Step =
    | Create(name: string, asg: string)
    | Delete(name: string)
    | MarkDeleting(name: string)
    | Restart
    | Reconcile(name: string, inputs: Inputs)

  ghost predicate Enabled(s: State, step: Step) {
    match step
    case Create(n, _) => n !in s.resources
    case Delete(n) => n in s.resources
    case MarkDeleting(n) => n in s.resources
    case Restart => true
    case Reconcile(_, o) => o.result.Rank() >= 2
  }

  function Apply(maxParallel: nat, s: State, step: Step): State
    requires step.MarkDeleting? ==> step.name in s.resources
  {
    match step
    case Create(n, asg) => s.(resources := s.resources[n := Resource(asg, Unset, false)])
    case Delete(n) => s.(resources := s.resources - {n})
    case MarkDeleting(n) => s.(resources := s.resources[n := s.resources[n].(deleting := true)])
    case Restart => s.(admitted := map[])
    case Reconcile(n, o) => ReconcileStep(maxParallel, s, n, o)
  }

  /**
   * A name is reused with another scaling group only once its former entry has left the map, and a
   * running resource is deleted outright, not left behind by a finalizer.
   */
  ghost predicate Orderly(s: State, step: Step) {
    match step
    case Create(n, asg) => n in s.admitted ==> EqualFold(s.admitted[n], asg)
    case MarkDeleting(n) => n in s.resources && s.resources[n].status != Running
    case _ => true
  }

  ghost predicate IsPath(maxParallel: nat, trace: seq<State>, steps: seq<Step>) {
    && |trace| == |steps| + 1
    && forall i :: 0 <= i < |steps| ==>
         Enabled(trace[i], steps[i]) && trace[i + 1] == Apply(maxParallel, trace[i], steps[i])
  }

  ghost predicate IsRun(maxParallel: nat, trace: seq<State>, steps: seq<Step>) {
    IsPath(maxParallel, trace, steps) && trace[0] == State(map[], map[])
  }

  // ----- the invariant -----

  ghost predicate GroupsDiffer(m: map<string, string>) {
    forall a, b :: a in m && b in m && a != b ==> !EqualFold(m[a], m[b])
  }

  function RunningGroups(resources: map<string, Resource>): map<string, string> {
    map n | n in RunningOnes(resources) :: resources[n].asg
  }

  /** What admission promises: one upgrade per group, no more than the limit, and whatever runs is admitted. */
  ghost predicate Promise(maxParallel: nat, s: State) {
    && GroupsDiffer(s.admitted)
    && |s.admitted| <= maxParallel
    && (s.admitted == map[] || RunningOnes(s.resources) <= s.admitted.Keys)
  }

  /** The promise, and what a reload after a restart relies on to keep it. */
  ghost predicate Admitted(maxParallel: nat, s: State) {
    && Promise(maxParallel, s)
    && (forall n :: n in s.admitted && n in s.resources ==> EqualFold(s.admitted[n], s.resources[n].asg))
    && GroupsDiffer(RunningGroups(s.resources)) && |RunningOnes(s.resources)| <= maxParallel
    && (forall n :: n in RunningOnes(s.resources) ==> !s.resources[n].deleting)
  }

  /** The map after a reload, or as it was: differing groups, within the limit, covering what runs. */
  lemma ReloadedIsAdmitted(maxParallel: nat, s: State)
    requires Admitted(maxParallel, s)
    ensures var m := Reloaded(s);
      && GroupsDiffer(m) && |m| <= maxParallel && RunningOnes(s.resources) <= m.Keys
      && forall n :: n in m && n in s.resources ==> EqualFold(m[n], s.resources[n].asg)
  {
    if s.admitted == map[] {
      assert Reloaded(s) == RunningGroups(s.resources);
      assert Reloaded(s).Keys == RunningOnes(s.resources);
    }
  }

  /** Whatever runs within an admitted map differs in its groups and is no more than the map holds. */
  lemma RunningWithin(maxParallel: nat, m: map<string, string>, resources: map<string, Resource>)
    requires GroupsDiffer(m) && |m| <= maxParallel && RunningOnes(resources) <= m.Keys
    requires forall n :: n in m && n in resources ==> EqualFold(m[n], resources[n].asg)
    ensures GroupsDiffer(RunningGroups(resources)) && |RunningOnes(resources)| <= maxParallel
  {
    SubsetCard(RunningOnes(resources), m.Keys);
  }

  lemma KeepsWaiting(maxParallel: nat, s: State, name: string, m: map<string, string>)
    requires Admitted(maxParallel, s) && name in s.resources && !s.resources[name].status.Finite()
    requires m == s.admitted || m == Reloaded(s)
    ensures Admitted(maxParallel, WithStatus(s, name, Waiting(s.resources[name].status)).(admitted := m))
  {
    ReloadedIsAdmitted(maxParallel, s);
    WaitingRuns(s, name);
    var r := WithStatus(s, name, Waiting(s.resources[name].status)).resources;
    assert forall n :: n in r ==> n in s.resources && r[n].asg == s.resources[n].asg;
  }

  /** Waiting neither starts nor stops an upgrade. */
  lemma WaitingRuns(s: State, name: string)
    requires name in s.resources && !s.resources[name].status.Finite()
    ensures var r := WithStatus(s, name, Waiting(s.resources[name].status)).resources;
      && RunningOnes(r) == RunningOnes(s.resources) && RunningGroups(r) == RunningGroups(s.resources)
      && forall n :: n in RunningOnes(r) ==> r[n] == s.resources[n]
  {
    var r := WithStatus(s, name, Waiting(s.resources[name].status)).resources;
    assert forall n :: n in RunningOnes(r) <==> n in RunningOnes(s.resources);
  }

  function WithEntry(m: map<string, string>, name: string, asg: string): map<string, string> {
    if name in m then m else m[name := asg]
  }

  lemma AdmitOne(maxParallel: nat, m: map<string, string>, name: string, asg: string)
    requires GroupsDiffer(m) && |m| <= maxParallel && !TakenByOther(m, name, asg)
    requires |m| < maxParallel || name in m
    ensures GroupsDiffer(WithEntry(m, name, asg)) && |WithEntry(m, name, asg)| <= maxParallel
  {
    if name !in m {
      assert m[name := asg].Keys == m.Keys + {name};
    }
  }

  /** The entries are those of existing resources, and what runs is among them and not being deleted. */
  ghost predicate Records(m: map<string, string>, resources: map<string, Resource>) {
    && RunningOnes(resources) <= m.Keys
    && (forall n :: n in m && n in resources ==> EqualFold(m[n], resources[n].asg))
    && (forall n :: n in RunningOnes(resources) ==> !resources[n].deleting)
  }

  lemma RecordsOneMore(m: map<string, string>, s: State, name: string, status: Status)
    requires Records(m, s.resources) && name in s.resources && !s.resources[name].deleting
    ensures Records(WithEntry(m, name, s.resources[name].asg), WithStatus(s, name, status).resources)
  {
    OnlyNameStarts(s, name, status);
  }

  lemma KeepsWhenAdmitted(maxParallel: nat, s: State, name: string, status: Status)
    requires Admitted(maxParallel, s) && name in s.resources && !s.resources[name].deleting
    requires !TakenByOther(Reloaded(s), name, s.resources[name].asg)
    requires |Reloaded(s)| < maxParallel || name in Reloaded(s)
    ensures Admitted(maxParallel,
              WithStatus(s, name, status).(admitted := WithEntry(Reloaded(s), name, s.resources[name].asg)))
  {
    var asg, before := s.resources[name].asg, Reloaded(s);
    ReloadedIsAdmitted(maxParallel, s);
    RecordsOneMore(before, s, name, status);
    AdmitOne(maxParallel, before, name, asg);
    RunningWithin(maxParallel, WithEntry(before, name, asg), WithStatus(s, name, status).resources);
  }

  lemma OnlyNameStarts(s: State, name: string, status: Status)
    requires name in s.resources
    ensures RunningOnes(WithStatus(s, name, status).resources) <= RunningOnes(s.resources) + {name}
  {
  }

  lemma RemovalKeeps(maxParallel: nat, s: State, name: string)
    requires Admitted(maxParallel, s) && name !in RunningOnes(s.resources)
    ensures Admitted(maxParallel, s.(admitted := s.admitted - {name}))
  {
    SubsetCard((s.admitted - {name}).Keys, s.admitted.Keys);
  }

  lemma ReconcileKeeps(maxParallel: nat, s: State, name: string, o: Inputs)
    requires Admitted(maxParallel, s)
    ensures Admitted(maxParallel, ReconcileStep(maxParallel, s, name, o))
  {
    if o.getWorks {
      if name !in s.resources || s.resources[name].deleting || s.resources[name].status.Finite() {
        RemovalKeeps(maxParallel, s, name);
      } else if o.valid {
        var r := s.resources[name];
        var m := Reloaded(s);
        if o.locked || (s.admitted == map[] && !o.listWorks) {
          KeepsWaiting(maxParallel, s, name, s.admitted);
        } else if TakenByOther(m, name, r.asg) || (|m| >= maxParallel && name !in m) {
          KeepsWaiting(maxParallel, s, name, m);
        } else {
          KeepsWhenAdmitted(maxParallel, s, name, if o.nodesKnown then o.result else Waiting(r.status));
        }
      }
    }
  }

  lemma OtherStepKeeps(maxParallel: nat, s: State, step: Step)
    requires Admitted(maxParallel, s) && Enabled(s, step) && Orderly(s, step) && !step.Reconcile?
    ensures Admitted(maxParallel, Apply(maxParallel, s, step))
  {
    var s' := Apply(maxParallel, s, step);
    assert RunningOnes(s'.resources) <= RunningOnes(s.resources);
    SubsetCard(RunningOnes(s'.resources), RunningOnes(s.resources));
    FewerRunning(s.resources, s'.resources);
  }

  lemma StepKeeps(maxParallel: nat, s: State, step: Step)
    requires Admitted(maxParallel, s) && Enabled(s, step) && Orderly(s, step)
    ensures Admitted(maxParallel, Apply(maxParallel, s, step))
  {
    if step.Reconcile? {
      ReconcileKeeps(maxParallel, s, step.name, step.inputs);
    } else {
      OtherStepKeeps(maxParallel, s, step);
    }
  }

  lemma FewerRunning(a: map<string, Resource>, b: map<string, Resource>)
    requires RunningOnes(b) <= RunningOnes(a) && GroupsDiffer(RunningGroups(a))
    requires forall n :: n in RunningOnes(b) ==> b[n].asg == a[n].asg
    ensures GroupsDiffer(RunningGroups(b))
  {
    var x, y := RunningGroups(a), RunningGroups(b);
    assert forall n :: n in y ==> n in x && y[n] == x[n];
  }

  /**
   * In every orderly run, restarts included: admitted upgrades have pairwise different scaling
   * groups, there are at most maxParallel of them, and every upgrade whose persisted status is running
   * is admitted unless the map is empty, in which case a reload admits it under the same conditions.
   */
  lemma {:induction false} AdmissionHolds(maxParallel: nat, trace: seq<State>, steps: seq<Step>, n: nat)
    requires IsRun(maxParallel, trace, steps) && n < |trace|
    requires forall i :: 0 <= i < |steps| ==> Orderly(trace[i], steps[i])
    ensures Admitted(maxParallel, trace[n])
    ensures Admitted(maxParallel, trace[n].(admitted := Reloaded(trace[n])))
  {
    if n > 0 {
      AdmissionHolds(maxParallel, trace, steps, n - 1);
      StepKeeps(maxParallel, trace[n - 1], steps[n - 1]);
    } else {
      assert RunningOnes(trace[0].resources) == {};
    }
    ReloadedIsAdmitted(maxParallel, trace[n]);
  }

  // ----- who gets in -----

  /**
   * What becomes of an upgrade that has neither ended nor is being deleted. The map is taken up again from
   * the running resources when it is empty. A reconcile that gets as far as deciding leaves the upgrade
   * admitted exactly when it was already, or no other one has its group and there is room; other entries
   * stay. It is rotated exactly when it is admitted, its group is free and the nodes are known; else it
   * waits, and an upgrade that had no status is then initialised.
   */
  lemma AdmittedIff(maxParallel: nat, s: State, name: string, o: Inputs)
    requires o.getWorks && o.valid && name in s.resources
    requires !s.resources[name].deleting && s.resources[name].status !in {Completed, Error}
    ensures var s', r := ReconcileStep(maxParallel, s, name, o), s.resources[name];
      var decides := !o.locked && (s.admitted != map[] || o.listWorks);
      var m := if s.admitted != map[] || !decides then s.admitted
               else map n | n in s.resources && s.resources[n].status == Running :: s.resources[n].asg;
      var free := forall n :: n in m && n != name ==> Fold(m[n]) != Fold(r.asg);
      var rotated := decides && free && name in s'.admitted && o.nodesKnown;
      && (name in s'.admitted <==> name in m || (decides && free && |m| < maxParallel))
      && s'.admitted - {name} == m - {name}
      && (name in s'.admitted ==> s'.admitted[name] == if name in m then m[name] else r.asg)
      && s'.resources == s.resources[name :=
           r.(status := if rotated then o.result else if r.status == Unset then Init else r.status)]
  {
    var m := Reloaded(s);
    assert m[name := s.resources[name].asg] - {name} == m - {name};
    assert s.admitted == map[] ==>
      m == map n | n in s.resources && s.resources[n].status == Running :: s.resources[n].asg;
  }

  // ----- a single slot -----

  /** With room for one upgrade this much holds however names are reused and deletions linger. */
  ghost predicate Single(maxParallel: nat, s: State) {
    && |s.admitted| <= maxParallel && |RunningOnes(s.resources)| <= maxParallel
    && (s.admitted == map[] || RunningOnes(s.resources) <= s.admitted.Keys)
  }

  lemma OnlyOne<T>(a: set<T>, x: T)
    requires |a| <= 1 && x in a
    ensures a == {x}
  {
    assert |a - {x}| == |a| - 1;
  }

  lemma SingleReload(maxParallel: nat, s: State)
    requires maxParallel <= 1 && Single(maxParallel, s)
    ensures |Reloaded(s)| <= maxParallel && RunningOnes(s.resources) <= Reloaded(s).Keys
  {
    assert s.admitted == map[] ==> Reloaded(s).Keys == RunningOnes(s.resources);
  }

  lemma SingleAdmits(maxParallel: nat, s: State, name: string, status: Status)
    requires maxParallel <= 1 && Single(maxParallel, s) && name in s.resources
    requires |Reloaded(s)| < maxParallel || name in Reloaded(s)
    ensures Single(maxParallel,
              WithStatus(s, name, status).(admitted := WithEntry(Reloaded(s), name, s.resources[name].asg)))
  {
    var m := Reloaded(s);
    SingleReload(maxParallel, s);
    if name in m {
      OnlyOne(m.Keys, name);
    } else {
      assert m.Keys == {};
      assert m[name := s.resources[name].asg].Keys == {name};
    }
    OnlyNameStarts(s, name, status);
    SubsetCard(RunningOnes(WithStatus(s, name, status).resources), {name});
  }

  lemma SingleRemoval(maxParallel: nat, s: State, name: string)
    requires maxParallel <= 1 && Single(maxParallel, s)
    ensures Single(maxParallel, s.(admitted := s.admitted - {name}))
  {
    if name in s.admitted {
      OnlyOne(s.admitted.Keys, name);
      assert s.admitted - {name} == map[];
    } else {
      assert s.admitted - {name} == s.admitted;
    }
  }

  lemma SingleReconcile(maxParallel: nat, s: State, name: string, o: Inputs)
    requires maxParallel <= 1 && Single(maxParallel, s)
    ensures Single(maxParallel, ReconcileStep(maxParallel, s, name, o))
  {
    if o.getWorks {
      if name !in s.resources || s.resources[name].deleting || s.resources[name].status.Finite() {
        SingleRemoval(maxParallel, s, name);
      } else if o.valid {
        var r, m := s.resources[name], Reloaded(s);
        WaitingRuns(s, name);
        SingleReload(maxParallel, s);
        if !o.locked && !(s.admitted == map[] && !o.listWorks)
           && !(TakenByOther(m, name, r.asg) || (|m| >= maxParallel && name !in m)) {
          SingleAdmits(maxParallel, s, name, if o.nodesKnown then o.result else Waiting(r.status));
        }
      }
    }
  }

  lemma SingleStep(maxParallel: nat, s: State, step: Step)
    requires maxParallel <= 1 && Single(maxParallel, s) && Enabled(s, step)
    ensures Single(maxParallel, Apply(maxParallel, s, step))
  {
    if step.Reconcile? {
      SingleReconcile(maxParallel, s, step.name, step.inputs);
    } else {
      var s' := Apply(maxParallel, s, step);
      assert RunningOnes(s'.resources) <= RunningOnes(s.resources);
      SubsetCard(RunningOnes(s'.resources), RunningOnes(s.resources));
    }
  }

  lemma {:induction false} SingleRun(maxParallel: nat, trace: seq<State>, steps: seq<Step>, n: nat)
    requires maxParallel <= 1 && IsRun(maxParallel, trace, steps) && n < |trace|
    ensures Single(maxParallel, trace[n])
  {
    if n > 0 {
      SingleRun(maxParallel, trace, steps, n - 1);
      SingleStep(maxParallel, trace[n - 1], steps[n - 1]);
    } else {
      assert RunningOnes(trace[0].resources) == {};
    }
  }

  /** With a single slot the promise holds in every run, orderly or not. */
  lemma SingleSlotHolds(maxParallel: nat, trace: seq<State>, steps: seq<Step>, n: nat)
    requires maxParallel <= 1 && IsRun(maxParallel, trace, steps) && n < |trace|
    ensures Promise(maxParallel, trace[n])
  {
    SingleRun(maxParallel, trace, steps, n);
    var m := trace[n].admitted;
    forall a, b | a in m && b in m
      ensures a == b
    {
      OnlyOne(m.Keys, a);
    }
  }

  // ----- status -----

  /** A resource's status only moves forward for as long as the resource exists, in any run whatever. */
  lemma StatusStep(maxParallel: nat, s: State, step: Step, name: string)
    requires Enabled(s, step) && name in s.resources && name in Apply(maxParallel, s, step).resources
    ensures s.resources[name].status.MayBecome(Apply(maxParallel, s, step).resources[name].status)
  {
  }

  lemma StatusForward(maxParallel: nat, trace: seq<State>, steps: seq<Step>, m: nat, n: nat, name: string)
    requires IsRun(maxParallel, trace, steps) && m <= n < |trace|
    requires forall i :: m <= i <= n ==> name in trace[i].resources
    ensures trace[m].resources[name].status.MayBecome(trace[n].resources[name].status)
  {
    var statuses := seq(n + 1, i requires 0 <= i <= n =>
      if name in trace[i].resources then trace[i].resources[name].status else Unset);
    forall i | m <= i < n
      ensures statuses[i].MayBecome(statuses[i + 1])
    {
      assert name in trace[i].resources && name in trace[i + 1].resources;
      StatusStep(maxParallel, trace[i], steps[i], name);
    }
    ForwardThroughout(statuses, m, n);
  }
}
