/** Nobody waits for ever: reconciles alone can let every upgrade in. */
module Progress {
  import opened Status
  import opened Admission

  datatype Request = Request(name: string, inputs: Inputs)

  /** The state after reconciles, one after the other. */
  function RunAll(maxParallel: nat, s: State, requests: seq<Request>): State {
    if requests == [] then s else
      var r := requests[|requests| - 1];
      ReconcileStep(maxParallel, RunAll(maxParallel, s, requests[..|requests| - 1]), r.name, r.inputs)
  }

  lemma RunSnoc(maxParallel: nat, s: State, requests: seq<Request>, r: Request)
    ensures RunAll(maxParallel, s, requests + [r]) ==
            ReconcileStep(maxParallel, RunAll(maxParallel, s, requests), r.name, r.inputs)
  {
    assert (requests + [r])[..|requests|] == requests;
  }

  /** Reconciles that are possible: rotating the nodes leaves an upgrade running or ended. */
  ghost predicate Possible(requests: seq<Request>) {
    forall r :: r in requests ==> r.inputs.result.Rank() >= 2
  }

  /** A reconcile in which every call works; the rotation leaves the upgrade running, or completes it. */
  const GOES_ON := Inputs(true, true, false, true, true, Running)
  const COMPLETES := Inputs(true, true, false, true, true, Completed)

  /** An upgrade that exists, is not being deleted and has not ended. */
  ghost predicate Pending(s: State, name: string) {
    name in s.resources && !s.resources[name].deleting && !s.resources[name].status.Finite()
  }

  // ----- one upgrade asks -----

  /** Asking either lets the upgrade in, or leaves the map loaded and not empty. */
  lemma Asks(maxParallel: nat, s: State, name: string)
    requires maxParallel >= 1 && Admitted(maxParallel, s) && Pending(s, name)
    ensures var s' := ReconcileStep(maxParallel, s, name, GOES_ON);
      && Admitted(maxParallel, s')
      && (name in s'.admitted || (s'.admitted == Reloaded(s) && s'.admitted != map[] && Pending(s', name)))
  {
    ReconcileKeeps(maxParallel, s, name, GOES_ON);
    var m := Reloaded(s);
    if m == map[] {
      assert !TakenByOther(m, name, s.resources[name].asg);
    }
  }

  // ----- one upgrade ends -----

  /** An admitted upgrade may complete, if it is still going on. */
  lemma Completes(maxParallel: nat, s: State, d: string)
    requires Admitted(maxParallel, s) && d in s.admitted && Pending(s, d)
    ensures var s' := ReconcileStep(maxParallel, s, d, COMPLETES);
      && s'.admitted == s.admitted && s'.resources.Keys == s.resources.Keys && s'.resources[d].status == Completed
      && !Pending(s', d)
      && forall n :: n in s.resources && n != d ==> s'.resources[n] == s.resources[n]
  {
    assert !TakenByOther(s.admitted, d, s.resources[d].asg);
    assert Reloaded(s) == s.admitted;
  }

  /** What has ended, is being deleted or is gone leaves the map with its next reconcile. */
  lemma Leaves(maxParallel: nat, s: State, d: string)
    requires !Pending(s, d)
    ensures ReconcileStep(maxParallel, s, d, GOES_ON) == s.(admitted := s.admitted - {d})
  {
  }

  /** One admitted upgrade ends and gives back its slot and its group; nothing else changes. */
  lemma Ends(maxParallel: nat, s: State, d: string) returns (requests: seq<Request>)
    requires Admitted(maxParallel, s) && d in s.admitted
    ensures Possible(requests)
    ensures Gone(maxParallel, s, RunAll(maxParallel, s, requests), d)
  {
    if Pending(s, d) {
      EndsInTwo(maxParallel, s, d);
      requests := AsRequests(maxParallel, s, Request(d, COMPLETES), Request(d, GOES_ON));
    } else {
      EndsInOne(maxParallel, s, d);
      requests := AsRequest(maxParallel, s, Request(d, GOES_ON));
    }
  }

  lemma AsRequest(maxParallel: nat, s: State, r: Request) returns (requests: seq<Request>)
    requires r.inputs.result.Rank() >= 2
    ensures Possible(requests)
    ensures RunAll(maxParallel, s, requests) == ReconcileStep(maxParallel, s, r.name, r.inputs)
  {
    requests := [r];
    OneRequest(maxParallel, s, r);
  }

  lemma AsRequests(maxParallel: nat, s: State, q: Request, r: Request) returns (requests: seq<Request>)
    requires q.inputs.result.Rank() >= 2 && r.inputs.result.Rank() >= 2
    ensures Possible(requests)
    ensures RunAll(maxParallel, s, requests) ==
            ReconcileStep(maxParallel, ReconcileStep(maxParallel, s, q.name, q.inputs), r.name, r.inputs)
  {
    requests := [q, r];
    TwoRequests(maxParallel, s, q, r);
  }

  /** The upgrade has left the map and nothing else has changed for the others. */
  ghost predicate Gone(maxParallel: nat, s: State, s': State, d: string) {
    && Admitted(maxParallel, s') && s'.admitted == s.admitted - {d}
    && RunningOnes(s'.resources) <= RunningOnes(s.resources) - {d}
    && forall n :: n in s.resources && n != d ==> n in s'.resources && s'.resources[n] == s.resources[n]
  }

  lemma EndsInOne(maxParallel: nat, s: State, d: string)
    requires Admitted(maxParallel, s) && !Pending(s, d)
    ensures Gone(maxParallel, s, ReconcileStep(maxParallel, s, d, GOES_ON), d)
  {
    NotRunning(maxParallel, s, d);
    GivesBack(maxParallel, s, d);
  }

  lemma EndsInTwo(maxParallel: nat, s: State, d: string)
    requires Admitted(maxParallel, s) && d in s.admitted && Pending(s, d)
    ensures Gone(maxParallel, s,
              ReconcileStep(maxParallel, ReconcileStep(maxParallel, s, d, COMPLETES), d, GOES_ON), d)
  {
    var s1 := ReconcileStep(maxParallel, s, d, COMPLETES);
    Completes(maxParallel, s, d);
    ReconcileKeeps(maxParallel, s, d, COMPLETES);
    OneLessRuns(s.resources, s1.resources, d);
    GivesBack(maxParallel, s1, d);
  }

  lemma OneRequest(maxParallel: nat, s: State, r: Request)
    ensures RunAll(maxParallel, s, [r]) == ReconcileStep(maxParallel, s, r.name, r.inputs)
  {
    RunSnoc(maxParallel, s, [], r);
    assert [] + [r] == [r];
  }

  lemma TwoRequests(maxParallel: nat, s: State, q: Request, r: Request)
    ensures RunAll(maxParallel, s, [q, r]) ==
            ReconcileStep(maxParallel, ReconcileStep(maxParallel, s, q.name, q.inputs), r.name, r.inputs)
  {
    OneRequest(maxParallel, s, q);
    RunSnoc(maxParallel, s, [q], r);
    assert [q] + [r] == [q, r];
  }

  lemma GivesBack(maxParallel: nat, s: State, d: string)
    requires Admitted(maxParallel, s) && !Pending(s, d)
    ensures var s' := ReconcileStep(maxParallel, s, d, GOES_ON);
      Admitted(maxParallel, s') && s'.admitted == s.admitted - {d} && s'.resources == s.resources
  {
    Leaves(maxParallel, s, d);
    ReconcileKeeps(maxParallel, s, d, GOES_ON);
  }

  lemma NotRunning(maxParallel: nat, s: State, d: string)
    requires Admitted(maxParallel, s) && !Pending(s, d)
    ensures d !in RunningOnes(s.resources)
  {
  }

  lemma OneLessRuns(a: map<string, Resource>, b: map<string, Resource>, d: string)
    requires a.Keys == b.Keys && d in b && b[d].status == Completed && forall n :: n in a && n != d ==> b[n] == a[n]
    ensures RunningOnes(b) <= RunningOnes(a) - {d}
  {
  }

  lemma {:induction false} RunConcat(maxParallel: nat, s: State, a: seq<Request>, b: seq<Request>)
    ensures RunAll(maxParallel, s, a + b) == RunAll(maxParallel, RunAll(maxParallel, s, a), b)
  {
    if b == [] {
      assert a + b == a;
    } else {
      var init, last := b[..|b| - 1], b[|b| - 1];
      RunConcat(maxParallel, s, a, init);
      RunSnoc(maxParallel, s, a + init, last);
      assert a + b == a + init + [last];
    }
  }

  // ----- everyone gets in -----

  lemma SmallerMap(m: map<string, string>, d: string)
    requires d in m
    ensures |m - {d}| < |m|
  {
    assert m.Keys == (m - {d}).Keys + {d};
  }

  lemma {:induction false} LetIn(maxParallel: nat, s: State, name: string) returns (requests: seq<Request>)
    requires maxParallel >= 1 && Admitted(maxParallel, s) && Pending(s, name)
    ensures Possible(requests) && name in RunAll(maxParallel, s, requests).admitted
    decreases |Reloaded(s)|
  {
    var ask := [Request(name, GOES_ON)];
    var s1 := ReconcileStep(maxParallel, s, name, GOES_ON);
    OneRequest(maxParallel, s, Request(name, GOES_ON));
    Asks(maxParallel, s, name);
    if name in s1.admitted {
      requests := ask;
    } else {
      var d :| d in s1.admitted;
      var rest := AfterOneEnds(maxParallel, s, s1, name, d);
      requests := ask + rest;
      RunConcat(maxParallel, s, ask, rest);
    }
  }

  lemma {:induction false} AfterOneEnds(maxParallel: nat, s: State, s1: State, name: string, d: string)
    returns (requests: seq<Request>)
    requires maxParallel >= 1 && Admitted(maxParallel, s1) && Pending(s1, name) && name !in s1.admitted
    requires s1.admitted == Reloaded(s) && d in s1.admitted
    ensures Possible(requests) && name in RunAll(maxParallel, s1, requests).admitted
    decreases |Reloaded(s)|, 0
  {
    var end := Ends(maxParallel, s1, d);
    var s2 := RunAll(maxParallel, s1, end);
    SmallerMap(s1.admitted, d);
    StillLoaded(maxParallel, s1, s2, d);
    var rest := LetIn(maxParallel, s2, name);
    requests := end + rest;
    RunConcat(maxParallel, s1, end, rest);
  }

  /** Once the last entry has left, a reload finds nothing running. */
  lemma StillLoaded(maxParallel: nat, s: State, s': State, d: string)
    requires Admitted(maxParallel, s) && d in s.admitted && s'.admitted == s.admitted - {d}
    requires RunningOnes(s'.resources) <= RunningOnes(s.resources) - {d}
    ensures Reloaded(s') == s.admitted - {d}
  {
    if s'.admitted == map[] {
      assert RunningOnes(s'.resources) <= s.admitted.Keys - {d} == (s.admitted - {d}).Keys;
      assert RunningOnes(s'.resources) == {};
    }
  }

  /**
   * In every state of every orderly run, with room for one upgrade at least: for every upgrade that has
   * neither ended nor is being deleted there are reconciles, and nothing else, after which it is admitted.
   */
  lemma CanBeAdmitted(maxParallel: nat, trace: seq<State>, steps: seq<Step>, n: nat, name: string)
    requires maxParallel >= 1 && IsRun(maxParallel, trace, steps) && n < |trace| && Pending(trace[n], name)
    requires forall i :: 0 <= i < |steps| ==> Orderly(trace[i], steps[i])
    ensures exists requests :: Possible(requests) && name in RunAll(maxParallel, trace[n], requests).admitted
  {
    AdmissionHolds(maxParallel, trace, steps, n);
    var requests := LetIn(maxParallel, trace[n], name);
  }
}
