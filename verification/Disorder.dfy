/**
 * Why admission needs its runs orderly: with two slots or more, after any disorderly step an orderly
 * continuation ends with the promise broken.
 */
module Disorder {
  import opened Common
  import opened Status
  import opened Admission

  // ----- orderly continuations -----

  ghost predicate OrderlyPath(maxParallel: nat, trace: seq<State>, steps: seq<Step>) {
    IsPath(maxParallel, trace, steps) && forall i :: 0 <= i < |steps| ==> Orderly(trace[i], steps[i])
  }

  ghost predicate Leads(maxParallel: nat, s: State, s': State) {
    exists trace: seq<State>, steps: seq<Step> ::
      OrderlyPath(maxParallel, trace, steps) && trace[0] == s && trace[|steps|] == s'
  }

  lemma LeadsNowhere(maxParallel: nat, s: State)
    ensures Leads(maxParallel, s, s)
  {
    var trace, steps: seq<Step> := [s], [];
    assert OrderlyPath(maxParallel, trace, steps) && trace[0] == s && trace[|steps|] == s;
  }

  lemma LeadsOn(maxParallel: nat, s0: State, s: State, step: Step, s': State)
    requires Leads(maxParallel, s0, s) && Enabled(s, step) && Orderly(s, step) && s' == Apply(maxParallel, s, step)
    ensures Leads(maxParallel, s0, s')
  {
    var trace: seq<State>, steps: seq<Step> :|
      OrderlyPath(maxParallel, trace, steps) && trace[0] == s0 && trace[|steps|] == s;
    var trace', steps' := trace + [s'], steps + [step];
    forall i | 0 <= i < |steps'|
      ensures Enabled(trace'[i], steps'[i]) && trace'[i + 1] == Apply(maxParallel, trace'[i], steps'[i])
      ensures Orderly(trace'[i], steps'[i])
    {
      if i < |steps| {
        assert trace'[i] == trace[i] && trace'[i + 1] == trace[i + 1] && steps'[i] == steps[i];
      }
    }
    assert OrderlyPath(maxParallel, trace', steps') && trace'[0] == s0 && trace'[|steps'|] == s';
  }

  /** The invariant holds all along an orderly continuation. */
  lemma {:induction false} KeptAlong(maxParallel: nat, trace: seq<State>, steps: seq<Step>, n: nat)
    requires OrderlyPath(maxParallel, trace, steps) && Admitted(maxParallel, trace[0]) && n < |trace|
    ensures Admitted(maxParallel, trace[n])
  {
    if n > 0 {
      KeptAlong(maxParallel, trace, steps, n - 1);
      StepKeeps(maxParallel, trace[n - 1], steps[n - 1]);
    }
  }

  ghost predicate CanBreak(maxParallel: nat, s: State) {
    exists s' :: Leads(maxParallel, s, s') && !Promise(maxParallel, s')
  }

  // ----- the steps the continuations are made of -----

  const WORKS := Inputs(true, true, false, true, true, Running)

  function Up(asg: string): Resource {
    Resource(asg, Running, false)
  }

  /** A new upgrade for a free group, with room in a map that is not empty, is admitted and started. */
  lemma CreateAndStart(maxParallel: nat, s0: State, s: State, name: string, asg: string) returns (s': State)
    requires Leads(maxParallel, s0, s) && name !in s.resources && name !in s.admitted
    requires s.admitted != map[] && !TakenByOther(s.admitted, name, asg) && |s.admitted| < maxParallel
    ensures Leads(maxParallel, s0, s') && s' == State(s.admitted[name := asg], s.resources[name := Up(asg)])
  {
    var s1 := s.(resources := s.resources[name := Resource(asg, Unset, false)]);
    LeadsOn(maxParallel, s0, s, Create(name, asg), s1);
    s' := State(s.admitted[name := asg], s.resources[name := Up(asg)]);
    assert s1.resources[name := Up(asg)] == s'.resources;
    LeadsOn(maxParallel, s0, s1, Reconcile(name, WORKS), s');
  }

  /** An upgrade is deleted and a reconcile takes its entry out of the map. */
  lemma DeleteAndForget(maxParallel: nat, s0: State, s: State, name: string) returns (s': State)
    requires Leads(maxParallel, s0, s)
    ensures Leads(maxParallel, s0, s') && s' == State(s.admitted - {name}, s.resources - {name})
  {
    var s1 := s.(resources := s.resources - {name});
    if name in s.resources {
      LeadsOn(maxParallel, s0, s, Delete(name), s1);
    } else {
      assert s1.resources == s.resources;
    }
    s' := s1.(admitted := s.admitted - {name});
    LeadsOn(maxParallel, s0, s1, Reconcile(name, WORKS), s');
  }

  /** Two running upgrades of one group are both taken up after a restart. */
  lemma RestartTakesBoth(maxParallel: nat, s0: State, s: State, a: string, b: string)
    requires Leads(maxParallel, s0, s) && a != b && a in RunningOnes(s.resources) && b in RunningOnes(s.resources)
    requires EqualFold(s.resources[a].asg, s.resources[b].asg) && !s.resources[b].deleting
    ensures CanBreak(maxParallel, s0)
  {
    var s1 := s.(admitted := map[]);
    LeadsOn(maxParallel, s0, s, Restart, s1);
    var m := Reloaded(s1);
    var s2 := s1.(admitted := m);
    BlockedByOther(maxParallel, s1, a, b);
    LeadsOn(maxParallel, s0, s1, Reconcile(b, WORKS), s2);
    assert a in m && b in m && EqualFold(m[a], m[b]);
  }

  lemma BlockedByOther(maxParallel: nat, s: State, a: string, b: string)
    requires s.admitted == map[] && a != b && a in RunningOnes(s.resources) && b in RunningOnes(s.resources)
    requires EqualFold(s.resources[a].asg, s.resources[b].asg) && !s.resources[b].deleting
    ensures ReconcileStep(maxParallel, s, b, WORKS) == s.(admitted := Reloaded(s))
  {
    var m := Reloaded(s);
    assert a in m && EqualFold(m[a], s.resources[b].asg);
    assert TakenByOther(m, b, s.resources[b].asg);
    assert s.resources[b := s.resources[b].(status := Waiting(Running))] == s.resources;
  }

  // ----- a name reused for another group -----

  /** A new upgrade whose name has a stale entry: its own group is free, and there is room besides. */
  ghost predicate Stale(maxParallel: nat, s: State, n: string) {
    && n in s.admitted && n in s.resources && s.resources[n] == Resource(s.resources[n].asg, Unset, false)
    && (forall d :: d in s.admitted ==> !EqualFold(s.admitted[d], s.resources[n].asg))
    && |s.admitted| < maxParallel
  }

  lemma FewerKeys<K, V>(m: map<K, V>, k: K)
    requires k in m
    ensures |m - {k}| == |m| - 1
  {
    assert m.Keys == (m - {k}).Keys + {k};
  }

  lemma OtherKey<K, V>(m: map<K, V>, k: K) returns (other: K)
    requires k in m && |m| >= 2
    ensures other in m && other != k
  {
    var rest := m.Keys - {k};
    assert |rest| == |m.Keys| - 1;
    other :| other in rest;
  }

  /** Whoever holds the group, or anyone when the map is full, ends first. */
  lemma MakeRoom(maxParallel: nat, s0: State, s: State, n: string) returns (s': State)
    requires maxParallel >= 2 && Leads(maxParallel, s0, s) && GroupsDiffer(s.admitted) && |s.admitted| <= maxParallel
    requires n in s.admitted && n in s.resources && s.resources[n] == Resource(s.resources[n].asg, Unset, false)
    requires !EqualFold(s.admitted[n], s.resources[n].asg)
    ensures Leads(maxParallel, s0, s') && Stale(maxParallel, s', n)
  {
    var asg := s.resources[n].asg;
    if d :| d in s.admitted && EqualFold(s.admitted[d], asg) {
      s' := DeleteAndForget(maxParallel, s0, s, d);
      FewerKeys(s.admitted, d);
      forall other | other in s'.admitted
        ensures !EqualFold(s'.admitted[other], asg)
      {
        assert !EqualFold(s.admitted[other], s.admitted[d]);
      }
    } else if |s.admitted| == maxParallel {
      var d := OtherKey(s.admitted, n);
      s' := DeleteAndForget(maxParallel, s0, s, d);
      FewerKeys(s.admitted, d);
    } else {
      s' := s;
    }
  }

  /** It is started under its stale entry, another upgrade of its group beside it, and a restart takes up both. */
  lemma StaleBreaks(maxParallel: nat, s0: State, s: State, n: string)
    requires Leads(maxParallel, s0, s) && Stale(maxParallel, s, n)
    ensures CanBreak(maxParallel, s0)
  {
    var asg := s.resources[n].asg;
    var s1 := State(s.admitted, s.resources[n := Up(asg)]);
    assert !TakenByOther(s.admitted, n, asg);
    LeadsOn(maxParallel, s0, s, Reconcile(n, WORKS), s1);
    var b := Unused(s1.resources.Keys + s1.admitted.Keys);
    assert !TakenByOther(s1.admitted, b, asg);
    var s2 := CreateAndStart(maxParallel, s0, s1, b, asg);
    assert n != b && s2.resources[n] == Up(asg) && s2.resources[b] == Up(asg);
    assert n in RunningOnes(s2.resources) && b in RunningOnes(s2.resources);
    RestartTakesBoth(maxParallel, s0, s2, n, b);
  }

  lemma ReusedNameBreaks(maxParallel: nat, s: State, n: string, asg: string)
    requires maxParallel >= 2 && Admitted(maxParallel, s) && Enabled(s, Create(n, asg)) && !Orderly(s, Create(n, asg))
    ensures CanBreak(maxParallel, Apply(maxParallel, s, Create(n, asg)))
  {
    var s1 := Apply(maxParallel, s, Create(n, asg));
    LeadsNowhere(maxParallel, s1);
    var s2 := MakeRoom(maxParallel, s1, s1, n);
    StaleBreaks(maxParallel, s1, s2, n);
  }

  // ----- a deletion that lingers -----

  /** A running upgrade being deleted is admitted next to another one, all groups different. */
  ghost predicate Lingers(maxParallel: nat, s: State, n: string) {
    && n in s.resources && s.resources[n].status == Running && s.resources[n].deleting
    && n in s.admitted && EqualFold(s.admitted[n], s.resources[n].asg)
    && GroupsDiffer(s.admitted) && 2 <= |s.admitted| <= maxParallel
  }

  /** A further upgrade asks to be admitted: afterwards the map is loaded, and there are two entries at least. */
  lemma AnotherAsks(maxParallel: nat, s0: State, s: State, n: string) returns (s': State)
    requires maxParallel >= 2 && Leads(maxParallel, s0, s)
    requires n in s.resources && s.resources[n].status == Running && s.resources[n].deleting
    requires var m := Reloaded(s);
      GroupsDiffer(m) && |m| <= maxParallel && n in m && EqualFold(m[n], s.resources[n].asg)
    ensures Leads(maxParallel, s0, s') && Lingers(maxParallel, s', n)
  {
    var m := Reloaded(s);
    var c := Unused(s.resources.Keys + s.admitted.Keys + m.Keys);
    var h := Unused(m.Values);
    var s1 := s.(resources := s.resources[c := Resource(h, Unset, false)]);
    LeadsOn(maxParallel, s0, s, Create(c, h), s1);
    s' := ReconcileStep(maxParallel, s1, c, WORKS);
    LeadsOn(maxParallel, s0, s1, Reconcile(c, WORKS), s');
    NewcomerIgnored(s, c, h);
    assert !TakenByOther(m, c, h);
    Answered(maxParallel, s1, c, m);
    OthersUntouched(maxParallel, s1, c, WORKS, n);
    if |m| < maxParallel {
      AdmitOne(maxParallel, m, c, h);
    }
  }

  lemma NewcomerIgnored(s: State, c: string, h: string)
    requires c !in s.resources
    ensures Reloaded(s.(resources := s.resources[c := Resource(h, Unset, false)])) == Reloaded(s)
  {
    var r := s.resources[c := Resource(h, Unset, false)];
    assert RunningOnes(r) == RunningOnes(s.resources);
  }

  lemma OthersUntouched(maxParallel: nat, s: State, name: string, o: Inputs, n: string)
    requires n in s.resources && n != name
    ensures var s' := ReconcileStep(maxParallel, s, name, o); n in s'.resources && s'.resources[n] == s.resources[n]
  {
  }

  /** What becomes of the map when a new upgrade of a free group asks: an entry more if there is room. */
  lemma Answered(maxParallel: nat, s: State, c: string, m: map<string, string>)
    requires c in s.resources && s.resources[c] == Resource(s.resources[c].asg, Unset, false) && c !in m
    requires m == Reloaded(s) && m != map[] && !TakenByOther(m, c, s.resources[c].asg)
    ensures var s' := ReconcileStep(maxParallel, s, c, WORKS);
      && s'.admitted == (if |m| < maxParallel then m[c := s.resources[c].asg] else m)
      && (|m| < maxParallel ==> |s'.admitted| == |m| + 1)
      && |m| >= 1
  {
    assert m[c := s.resources[c].asg].Keys == m.Keys + {c};
    assert m.Keys != {};
  }

  lemma LingeringBreaks(maxParallel: nat, s0: State, s: State, n: string)
    requires Leads(maxParallel, s0, s) && Lingers(maxParallel, s, n)
    ensures CanBreak(maxParallel, s0)
  {
    var asg := s.resources[n].asg;
    var s1 := s.(admitted := s.admitted - {n});
    LeadsOn(maxParallel, s0, s, Reconcile(n, WORKS), s1);
    FewerKeys(s.admitted, n);
    assert s1.admitted != map[] by {
      assert |s1.admitted| >= 1;
    }
    var b := Unused(s1.resources.Keys + s1.admitted.Keys);
    forall other | other in s1.admitted
      ensures !EqualFold(s1.admitted[other], asg)
    {
      assert !EqualFold(s.admitted[other], s.admitted[n]);
    }
    assert !TakenByOther(s1.admitted, b, asg);
    var s2 := CreateAndStart(maxParallel, s0, s1, b, asg);
    assert n != b && s2.resources[n] == s.resources[n] && s2.resources[b] == Up(asg);
    assert n in RunningOnes(s2.resources) && b in RunningOnes(s2.resources);
    RestartTakesBoth(maxParallel, s0, s2, n, b);
  }

  lemma LingeringDeletionBreaks(maxParallel: nat, s: State, n: string)
    requires maxParallel >= 2 && Admitted(maxParallel, s) && Enabled(s, MarkDeleting(n)) && !Orderly(s, MarkDeleting(n))
    ensures CanBreak(maxParallel, Apply(maxParallel, s, MarkDeleting(n)))
  {
    var s1 := Apply(maxParallel, s, MarkDeleting(n));
    ReloadedIsAdmitted(maxParallel, s);
    assert RunningOnes(s1.resources) == RunningOnes(s.resources);
    assert Reloaded(s1) == Reloaded(s);
    assert n in RunningOnes(s.resources);
    LeadsNowhere(maxParallel, s1);
    var s2 := AnotherAsks(maxParallel, s1, s1, n);
    LingeringBreaks(maxParallel, s1, s2, n);
  }

  // ----- the exact condition -----

  /**
   * With two slots or more, a step after which the promise is kept in every orderly continuation is
   * an orderly step, and every orderly step is one.
   */
  lemma PromiseKeptIff(maxParallel: nat, s: State, step: Step)
    requires maxParallel >= 2 && Admitted(maxParallel, s) && Enabled(s, step)
    ensures Orderly(s, step) <==> !CanBreak(maxParallel, Apply(maxParallel, s, step))
  {
    var s1 := Apply(maxParallel, s, step);
    if Orderly(s, step) {
      StepKeeps(maxParallel, s, step);
      forall s' | Leads(maxParallel, s1, s')
        ensures Promise(maxParallel, s')
      {
        var trace: seq<State>, steps: seq<Step> :|
          OrderlyPath(maxParallel, trace, steps) && trace[0] == s1 && trace[|steps|] == s';
        KeptAlong(maxParallel, trace, steps, |steps|);
      }
    } else if step.Create? {
      ReusedNameBreaks(maxParallel, s, step.name, step.asg);
    } else {
      LingeringDeletionBreaks(maxParallel, s, step.name);
    }
  }

  // ----- both kinds of disorder occur -----

  lemma FirstRuns(maxParallel: nat, a: string, g: string)
    requires maxParallel >= 1
    ensures Leads(maxParallel, State(map[], map[]), State(map[a := g], map[a := Up(g)]))
  {
    var s0 := State(map[], map[]);
    var s1, s2 := State(map[], map[a := Resource(g, Unset, false)]), State(map[a := g], map[a := Up(g)]);
    LeadsNowhere(maxParallel, s0);
    LeadsOn(maxParallel, s0, s0, Create(a, g), s1);
    assert RunningOnes(s1.resources) == {};
    assert Reloaded(s1) == map[];
    assert !TakenByOther(map[], a, g);
    assert s1.resources[a := Up(g)] == s2.resources;
    LeadsOn(maxParallel, s0, s1, Reconcile(a, WORKS), s2);
  }

  /**
   * From the start, orderly steps lead to a state in which the only upgrade runs, and to one in which
   * it was deleted and not yet forgotten; marking the one as deleted, or reusing the name of the other
   * for another group, lets the promise be broken.
   */
  lemma DisorderOccurs(maxParallel: nat, a: string, g: string, h: string)
    requires maxParallel >= 2 && !EqualFold(g, h)
    ensures var s := State(map[a := g], map[a := Up(g)]);
      Leads(maxParallel, State(map[], map[]), s) && CanBreak(maxParallel, Apply(maxParallel, s, MarkDeleting(a)))
    ensures var s := State(map[a := g], map[]);
      Leads(maxParallel, State(map[], map[]), s) && CanBreak(maxParallel, Apply(maxParallel, s, Create(a, h)))
  {
    var s0, s, t := State(map[], map[]), State(map[a := g], map[a := Up(g)]), State(map[a := g], map[]);
    FirstRuns(maxParallel, a, g);
    assert map[a := Up(g)] - {a} == map[];
    LeadsOn(maxParallel, s0, s, Delete(a), t);
    StartIsAdmitted(maxParallel);
    ReachedIsAdmitted(maxParallel, s);
    ReachedIsAdmitted(maxParallel, t);
    PromiseKeptIff(maxParallel, s, MarkDeleting(a));
    PromiseKeptIff(maxParallel, t, Create(a, h));
  }

  lemma StartIsAdmitted(maxParallel: nat)
    ensures Admitted(maxParallel, State(map[], map[]))
  {
    assert RunningOnes(map[]) == {};
  }

  lemma ReachedIsAdmitted(maxParallel: nat, s: State)
    requires Leads(maxParallel, State(map[], map[]), s) && Admitted(maxParallel, State(map[], map[]))
    ensures Admitted(maxParallel, s)
  {
    var trace: seq<State>, steps: seq<Step> :|
      OrderlyPath(maxParallel, trace, steps) && trace[0] == State(map[], map[]) && trace[|steps|] == s;
    KeptAlong(maxParallel, trace, steps, |steps|);
  }
}
