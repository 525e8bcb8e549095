/** The terminate loop of a reconcile, however its calls turn out. */
module TerminateLoop {
  import opened Fleet
  import opened Selection
  import opened Rotation
  import opened Status

  function Logged(targets: seq<Instance>, now: int, reconcile: nat): seq<Event> {
    seq(|targets|, i requires 0 <= i < |targets| => Event.Terminated(now, targets[i].id, reconcile))
  }

  /** How the calls for one instance turn out: the termination, the untagging, the script after it. */
  datatype Calls = Calls(terminate: bool, untag: bool, script: bool)

  /** The rest of the terminate loop when nothing comes in between. */
  function TerminateRest(s: State, calls: seq<Calls>): State
    requires s.ctl.Terminating? && |calls| == |s.ctl.batch|
    decreases if s.ctl.next < |s.ctl.batch| then |s.ctl.batch| - s.ctl.next else 0
  {
    if s.ctl.next < |s.ctl.batch| then
      var c := calls[s.ctl.next];
      var s' := TerminateOne(s, c.terminate, c.untag, c.script);
      if s'.ctl.Terminating? then TerminateRest(s', calls) else s'
    else TerminateOne(s, true, true, true)
  }

  lemma UntagTwice(tags: Tags, a: set<InstanceId>, b: set<InstanceId>)
    ensures UntagInProgress(UntagInProgress(tags, a), b) == UntagInProgress(tags, a + b)
  {
  }

  lemma LoggedCons(i: Instance, rest: seq<Instance>, now: int, reconcile: nat)
    ensures Logged([i] + rest, now, reconcile) ==
            [Event.Terminated(now, i.id, reconcile)] + Logged(rest, now, reconcile)
  {
  }

  lemma WithNodeFrom(snap: Snapshot, batch: seq<Instance>, k: nat, stop: nat)
    requires k < stop <= |batch|
    ensures WithNode(snap, batch[k..stop]) ==
            (if HasNode(snap, batch[k].id) then [batch[k]] else []) + WithNode(snap, batch[k + 1..stop])
  {
    assert batch[k..stop][1..] == batch[k + 1..stop];
  }

  /** The loop gets as far as `stop`: the first instance with a node whose termination or script fails, or the end. */
  ghost predicate StopsAt(s: State, calls: seq<Calls>, stop: nat)
    requires s.ctl.Terminating? && |calls| == |s.ctl.batch|
  {
    var c := s.ctl;
    && c.next <= stop <= |c.batch|
    && (forall i :: c.next <= i < stop && HasNode(c.seen, c.batch[i].id) ==> calls[i].terminate && calls[i].script)
    && (stop < |c.batch| ==> HasNode(c.seen, c.batch[stop].id) && !(calls[stop].terminate && calls[stop].script))
  }

  /** The instances that are terminated on the way: those with a node, and the one whose script fails. */
  ghost function TerminatedUpTo(s: State, calls: seq<Calls>, stop: nat): seq<Instance>
    requires s.ctl.Terminating? && |calls| == |s.ctl.batch| && StopsAt(s, calls, stop)
  {
    WithNode(s.ctl.seen, s.ctl.batch[s.ctl.next..stop]) +
    if stop < |s.ctl.batch| && calls[stop].terminate then [s.ctl.batch[stop]] else []
  }

  /** The IDs of those for which the untagging worked as well. */
  ghost function UntaggedUpTo(s: State, calls: seq<Calls>, stop: nat): set<InstanceId>
    requires s.ctl.Terminating? && |calls| == |s.ctl.batch| && StopsAt(s, calls, stop)
  {
    set i | s.ctl.next <= i <= stop && i < |s.ctl.batch| && HasNode(s.ctl.seen, s.ctl.batch[i].id)
            && calls[i].terminate && calls[i].untag :: s.ctl.batch[i].id
  }

  /** Exactly the in-progress tags of the given instances are gone. */
  ghost predicate Untagged(tags: Tags, ids: set<InstanceId>, tags': Tags) {
    forall id ::
      && (id in tags' <==> id in tags && !(id in ids && tags[id] == InProgress))
      && (id in tags' ==> tags'[id] == tags[id])
  }

  ghost predicate Ends(s: State, calls: seq<Calls>, stop: nat, s': State)
    requires s.ctl.Terminating? && |calls| == |s.ctl.batch| && StopsAt(s, calls, stop)
  {
    && s'.ctl == Idle
    && s'.log == s.log + Logged(TerminatedUpTo(s, calls, stop), s.now, s.reconciles)
    && s'.cloud == s.cloud.(tags := s'.cloud.tags)
    && Untagged(s.cloud.tags, UntaggedUpTo(s, calls, stop), s'.cloud.tags)
    && s'.status == (if stop < |s.ctl.batch| && calls[stop].terminate then Error else s.status)
    && s'.workers == s.workers
  }

  /**
   * A terminate loop, however its calls turn out: it terminates, in their order, exactly the batch
   * members with a node up to the first one whose termination fails, or up to and including the first
   * one whose script fails; it removes exactly the tags for which that call works; the reconcile ends,
   * and the upgrade fails exactly when a script failed.
   */
  lemma {:induction false} LoopTerminates(s: State, calls: seq<Calls>, stop: nat)
    requires s.ctl.Terminating? && |calls| == |s.ctl.batch| && StopsAt(s, calls, stop)
    ensures Ends(s, calls, stop, TerminateRest(s, calls))
    decreases stop - s.ctl.next
  {
    var b, k := s.ctl.batch, s.ctl.next;
    if k == stop {
      LoopStopsHere(s, calls);
    } else if !HasNode(s.ctl.seen, b[k].id) {
      LoopSkips(s, calls, stop);
    } else {
      LoopTakes(s, calls, stop);
    }
  }

  lemma LoopStopsHere(s: State, calls: seq<Calls>)
    requires s.ctl.Terminating? && |calls| == |s.ctl.batch| && StopsAt(s, calls, s.ctl.next)
    ensures Ends(s, calls, s.ctl.next, TerminateRest(s, calls))
  {
    var b, k := s.ctl.batch, s.ctl.next;
    assert b[k..k] == [];
    assert TerminatedUpTo(s, calls, k) == if k < |b| && calls[k].terminate then [b[k]] else [];
    if k < |b| && calls[k].terminate {
      assert UntaggedUpTo(s, calls, k) == if calls[k].untag then {b[k].id} else {};
      LoggedCons(b[k], [], s.now, s.reconciles);
      assert [b[k]] + [] == [b[k]];
    } else {
      assert UntaggedUpTo(s, calls, k) == {};
    }
    assert UntagInProgress(s.cloud.tags, {}) == s.cloud.tags;
  }

  lemma {:induction false} LoopSkips(s: State, calls: seq<Calls>, stop: nat)
    requires s.ctl.Terminating? && |calls| == |s.ctl.batch| && StopsAt(s, calls, stop) && s.ctl.next < stop
    requires !HasNode(s.ctl.seen, s.ctl.batch[s.ctl.next].id)
    ensures Ends(s, calls, stop, TerminateRest(s, calls))
    decreases stop - s.ctl.next, 0
  {
    var s1 := s.(ctl := s.ctl.(next := s.ctl.next + 1));
    SkippedFirst(s, s1, calls, stop);
    LoopTerminates(s1, calls, stop);
  }

  lemma SkippedFirst(s: State, s1: State, calls: seq<Calls>, stop: nat)
    requires s.ctl.Terminating? && |calls| == |s.ctl.batch| && StopsAt(s, calls, stop) && s.ctl.next < stop
    requires !HasNode(s.ctl.seen, s.ctl.batch[s.ctl.next].id) && s1.ctl == s.ctl.(next := s.ctl.next + 1)
    ensures StopsAt(s1, calls, stop)
    ensures TerminatedUpTo(s, calls, stop) == TerminatedUpTo(s1, calls, stop)
    ensures UntaggedUpTo(s, calls, stop) == UntaggedUpTo(s1, calls, stop)
  {
    WithNodeFrom(s.ctl.seen, s.ctl.batch, s.ctl.next, stop);
  }

  lemma {:induction false} LoopTakes(s: State, calls: seq<Calls>, stop: nat)
    requires s.ctl.Terminating? && |calls| == |s.ctl.batch| && StopsAt(s, calls, stop) && s.ctl.next < stop
    requires HasNode(s.ctl.seen, s.ctl.batch[s.ctl.next].id)
    ensures Ends(s, calls, stop, TerminateRest(s, calls))
    decreases stop - s.ctl.next, 0
  {
    var b, k := s.ctl.batch, s.ctl.next;
    var s1 := TerminateOne(s, true, calls[k].untag, true);
    var now, later := if calls[k].untag then {b[k].id} else {}, UntaggedUpTo(s1, calls, stop);
    LoopTerminates(s1, calls, stop);
    TakenFirst(s, s1, calls, stop);
    LoggedCons(b[k], TerminatedUpTo(s1, calls, stop), s.now, s.reconciles);
    UntagTwice(s.cloud.tags, now, later);
    TagsTaken(s, calls[k].untag);
  }

  lemma TagsTaken(s: State, untag: bool)
    requires s.ctl.Terminating? && s.ctl.next < |s.ctl.batch| && HasNode(s.ctl.seen, s.ctl.batch[s.ctl.next].id)
    ensures var s1, id := TerminateOne(s, true, untag, true), s.ctl.batch[s.ctl.next].id;
      && s1.cloud == s.cloud.(tags := UntagInProgress(s.cloud.tags, if untag then {id} else {}))
      && s1.log == s.log + [Event.Terminated(s.now, id, s.reconciles)]
  {
    assert UntagInProgress(s.cloud.tags, {}) == s.cloud.tags;
  }

  /** The first instance of the rest of the loop is terminated before the others. */
  lemma TakenFirst(s: State, s1: State, calls: seq<Calls>, stop: nat)
    requires s.ctl.Terminating? && |calls| == |s.ctl.batch| && StopsAt(s, calls, stop) && s.ctl.next < stop
    requires HasNode(s.ctl.seen, s.ctl.batch[s.ctl.next].id) && s1.ctl == s.ctl.(next := s.ctl.next + 1)
    ensures StopsAt(s1, calls, stop)
    ensures TerminatedUpTo(s, calls, stop) == [s.ctl.batch[s.ctl.next]] + TerminatedUpTo(s1, calls, stop)
    ensures var now := if calls[s.ctl.next].untag then {s.ctl.batch[s.ctl.next].id} else {};
      UntaggedUpTo(s, calls, stop) == now + UntaggedUpTo(s1, calls, stop)
  {
    WithNodeFrom(s.ctl.seen, s.ctl.batch, s.ctl.next, stop);
    UntaggedFirst(s, s1, calls, stop);
  }

  lemma UntaggedFirst(s: State, s1: State, calls: seq<Calls>, stop: nat)
    requires s.ctl.Terminating? && |calls| == |s.ctl.batch| && StopsAt(s, calls, stop) && s.ctl.next < stop
    requires HasNode(s.ctl.seen, s.ctl.batch[s.ctl.next].id) && s1.ctl == s.ctl.(next := s.ctl.next + 1)
    requires StopsAt(s1, calls, stop)
    ensures var now := if calls[s.ctl.next].untag then {s.ctl.batch[s.ctl.next].id} else {};
      UntaggedUpTo(s, calls, stop) == now + UntaggedUpTo(s1, calls, stop)
  {
    var b, k := s.ctl.batch, s.ctl.next;
    var now, later := if calls[k].untag then {b[k].id} else {}, UntaggedUpTo(s1, calls, stop);
    forall i | k <= i <= stop && i < |b| && HasNode(s.ctl.seen, b[i].id) && calls[i].terminate && calls[i].untag
      ensures b[i].id in now + later
    {
      if i > k {
        assert b[i].id in later;
      }
    }
    assert UntaggedUpTo(s, calls, stop) <= now + later;
  }
}
