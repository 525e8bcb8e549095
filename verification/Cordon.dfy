/**
 * Early cordon: cordoning nodes under an annotation of ownership, and taking both back, against an
 * API server any of whose calls may fail, conflict, or fail after having taken effect.
 */
module Cordon {
  import opened Common

  /** The two facts about a node that matter: whether it is unschedulable, and whether it carries our annotation. */
  datatype Flags = Flags(cordoned: bool, annotated: bool)

  /** Only cordoned nodes carry the annotation. */
  ghost predicate Owned(nodes: map<string, Flags>) {
    forall n :: n in nodes && nodes[n].annotated ==> nodes[n].cordoned
  }

  /** A node object held by the controller; it may lag behind the server. */
  class NodeObject {
    const name: string
    var unschedulable: bool
    var annotated: bool

    constructor (name: string, f: Flags)
      ensures this.name == name && Value() == f
    {
      this.name, unschedulable, annotated := name, f.cordoned, f.annotated;
    }

    function Value(): Flags
      reads this
    {
      Flags(unschedulable, annotated)
    }
  }

  datatype Outcome = Ok | Conflict | OtherError

  /** Writing a whole object counts as annotating or as removing the annotation, by what the object carries. */
  datatype CallKind = GetCall | AnnotateCall | UnannotateCall | CordonCall | UncordonCall

  datatype Call = Call(kind: CallKind, outcome: Outcome)

  class ApiServer {
    var nodes: map<string, Flags>
    ghost var calls: seq<Call>                // every call made, and what it reported
    ghost var trail: seq<map<string, Flags>>  // the server's state after each call
    ghost var faults: nat                     // calls that reported an error
    ghost var lost: nat                       // calls that took effect and still reported an error

    ghost predicate Sound()
      reads this
    {
      Owned(nodes) && forall k :: 0 <= k < |trail| ==> Owned(trail[k])
    }

    /** Between the two states only `name` may differ, every intermediate state was recorded, nothing was forgotten. */
    twostate predicate Touched(name: string)
      reads this
    {
      && nodes.Keys == old(nodes.Keys)
      && (forall n :: n in nodes && n != name ==> nodes[n] == old(nodes)[n])
      && old(calls) <= calls && old(trail) <= trail && old(faults) <= faults && old(lost) <= lost
      && (old(lost) < lost ==> old(faults) < faults)
    }

    method Get(name: string) returns (r: Option<NodeObject>)
      modifies this
      ensures nodes == old(nodes) && lost == old(lost) && Touched(name)
      ensures calls == old(calls) + [Call(GetCall, if r.Some? then Ok else OtherError)]
      ensures old(Sound()) ==> Sound()
      ensures r.Some? ==> name in nodes && fresh(r.value) && r.value.name == name && r.value.Value() == nodes[name]
      ensures r.Some? ==> faults == old(faults)
      ensures r.None? && name in nodes ==> faults > old(faults)
    {
      if name in nodes {
        if * {
          var obj := new NodeObject(name, nodes[name]);
          r := Some(obj);
        } else {
          r := None;
          faults := faults + 1;
        }
      } else {
        r := None;
      }
      calls := calls + [Call(GetCall, if r.Some? then Ok else OtherError)];
      trail := trail + [nodes];
    }

    /** Replaces the stored flags by those of the object, unless it fails first. */
    method Update(obj: NodeObject) returns (outcome: Outcome, updated: Option<NodeObject>)
      requires obj.name in nodes
      modifies this
      ensures Touched(obj.name)
      ensures calls == old(calls) + [Call(if obj.annotated then AnnotateCall else UnannotateCall, outcome)]
      ensures nodes[obj.name] == obj.Value() || nodes == old(nodes)
      ensures nodes != old(nodes) && !outcome.Ok? ==> outcome.OtherError? && lost > old(lost)
      ensures outcome.Ok? ==> nodes[obj.name] == obj.Value() && lost == old(lost) && faults == old(faults)
      ensures outcome.Ok? ==>
        updated.Some? && fresh(updated.value) && updated.value.name == obj.name && updated.value.Value() == obj.Value()
      ensures !outcome.Ok? ==> faults > old(faults)
      ensures old(Sound()) && (obj.annotated ==> obj.unschedulable) ==> Sound()
    {
      updated := None;
      if * {
        outcome := Ok;
        nodes := nodes[obj.name := obj.Value()];
        var copy := new NodeObject(obj.name, obj.Value());
        updated := Some(copy);
      } else if * {
        outcome := Conflict;
        faults := faults + 1;
      } else if * {
        outcome := OtherError;
        faults := faults + 1;
      } else {
        outcome := OtherError;
        nodes := nodes[obj.name := obj.Value()];
        faults, lost := faults + 1, lost + 1;
      }
      calls := calls + [Call(if obj.annotated then AnnotateCall else UnannotateCall, outcome)];
      trail := trail + [nodes];
    }

    method PatchUnschedulable(name: string, desired: bool) returns (ok: bool)
      requires name in nodes
      modifies this
      ensures Touched(name)
      ensures calls == old(calls) + [Call(if desired then CordonCall else UncordonCall, if ok then Ok else OtherError)]
      ensures nodes[name] == old(nodes)[name].(cordoned := desired) || nodes == old(nodes)
      ensures ok ==> nodes[name] == old(nodes)[name].(cordoned := desired) && lost == old(lost) && faults == old(faults)
      ensures !ok ==> faults > old(faults)
      ensures !ok && nodes != old(nodes) ==> lost > old(lost)
      ensures old(Sound()) && (desired || !old(nodes)[name].annotated) ==> Sound()
    {
      if * {
        ok := true;
        nodes := nodes[name := nodes[name].(cordoned := desired)];
      } else if * {
        ok := false;
        faults := faults + 1;
      } else {
        ok := false;
        nodes := nodes[name := nodes[name].(cordoned := desired)];
        faults, lost := faults + 1, lost + 1;
      }
      calls := calls + [Call(if desired then CordonCall else UncordonCall, if ok then Ok else OtherError)];
      trail := trail + [nodes];
    }
  }

  /** No call when the object already has the flag; otherwise the object is changed first, then the server. */
  method CordonUncordonNode(api: ApiServer, node: NodeObject, desired: bool) returns (ok: bool)
    requires node.name in api.nodes && node.unschedulable == api.nodes[node.name].cordoned
    modifies api, node`unschedulable
    ensures api.Touched(node.name)
    ensures node.unschedulable == desired && (old(node.unschedulable) == desired ==> ok)
    ensures api.calls == old(api.calls) +
      if old(node.unschedulable) == desired then []
      else [Call(if desired then CordonCall else UncordonCall, if ok then Ok else OtherError)]
    ensures api.nodes[node.name].annotated == old(api.nodes)[node.name].annotated
    ensures ok ==>
      api.nodes[node.name].cordoned == desired && api.lost == old(api.lost) && api.faults == old(api.faults)
    ensures !ok ==> api.faults > old(api.faults)
    ensures !ok && api.nodes != old(api.nodes) ==> api.lost > old(api.lost)
    ensures old(api.Sound()) && (desired || !old(api.nodes)[node.name].annotated) ==> api.Sound()
  {
    if node.unschedulable == desired {
      return true;
    }
    node.unschedulable := desired;
    ok := api.PatchUnschedulable(node.name, desired);
  }

  const MAX_RETRIES := 3

  // ----- what the calls of an attempt say about it -----

  ghost function Gets(calls: seq<Call>): nat {
    if calls == [] then 0 else
      Gets(calls[..|calls| - 1]) + if calls[|calls| - 1].kind.GetCall? then 1 else 0
  }

  lemma GetsSnoc(calls: seq<Call>, c: Call)
    ensures Gets(calls + [c]) == Gets(calls) + if c.kind.GetCall? then 1 else 0
  {
    assert (calls + [c])[..|calls|] == calls;
  }

  /** The calls of an uncordoning: it reads, removes the annotation, and lifts the cordon. */
  ghost predicate Undoing(calls: seq<Call>) {
    forall c :: c in calls ==> c.kind in {GetCall, UnannotateCall, UncordonCall}
  }

  /** An uncordoning ended with a call that failed, and for a conflict with the last of all retries. */
  ghost predicate UndoFailed(calls: seq<Call>) {
    && Undoing(calls) && calls != []
    && var last := calls[|calls| - 1];
       !last.outcome.Ok? && (last.outcome.Conflict? ==> Gets(calls) == MAX_RETRIES)
  }

  /** Annotating was given up: after a failure of the last try, or one that is not worth another. */
  ghost predicate GaveUp(calls: seq<Call>) {
    && calls != []
    && var last := calls[|calls| - 1];
       && !last.outcome.Ok? && last.kind in {GetCall, AnnotateCall}
       && (Gets(calls) == MAX_RETRIES || last == Call(AnnotateCall, OtherError))
  }

  // ----- one try -----

  /** One try of either loop: the node could not be read, or writing it back had an outcome. */
  datatype Try = Unread | Wrote(outcome: Outcome)

  ghost function CallsOf(r: Try, annotate: bool): seq<Call> {
    if r.Unread? then [Call(GetCall, OtherError)]
    else [Call(GetCall, Ok), Call(if annotate then AnnotateCall else UnannotateCall, r.outcome)]
  }

  lemma GetsTry(calls: seq<Call>, r: Try, annotate: bool)
    ensures Gets(calls + CallsOf(r, annotate)) == Gets(calls) + 1
    ensures !annotate && Undoing(calls) ==> Undoing(calls + CallsOf(r, annotate))
  {
    GetsSnoc(calls, CallsOf(r, annotate)[0]);
    if r.Wrote? {
      GetsSnoc(calls + [CallsOf(r, annotate)[0]], CallsOf(r, annotate)[1]);
      assert calls + CallsOf(r, annotate) == calls + [CallsOf(r, annotate)[0]] + [CallsOf(r, annotate)[1]];
    }
  }

  /** Reads the node and writes it back with or without the annotation; `read` is what was written. */
  method ReadAndWrite(api: ApiServer, name: string, annotate: bool)
    returns (r: Try, read: Option<NodeObject>, updated: Option<NodeObject>)
    requires api.Sound() && name in api.nodes && (annotate ==> api.nodes[name].cordoned)
    modifies api
    ensures api.Sound() && api.Touched(name)
    ensures api.calls == old(api.calls) + CallsOf(r, annotate)
    ensures r != Wrote(Ok) ==> api.faults > old(api.faults)
    ensures r == Wrote(Ok) ==> api.faults == old(api.faults)
    ensures api.nodes == old(api.nodes) || api.nodes[name] == old(api.nodes)[name].(annotated := annotate)
    ensures r.Unread? || r == Wrote(Conflict) ==> api.nodes == old(api.nodes)
    ensures r.Wrote? ==> read.Some? && fresh(read.value) && read.value.name == name
                         && read.value.Value() == old(api.nodes)[name].(annotated := annotate)
    ensures r == Wrote(Ok) ==> api.nodes[name] == old(api.nodes)[name].(annotated := annotate)
                               && updated.Some? && fresh(updated.value) && updated.value.name == name
                               && updated.value.Value() == api.nodes[name]
  {
    updated := None;
    read := api.Get(name);
    if read.None? {
      return Unread, read, updated;
    }
    read.value.annotated := annotate;
    var outcome;
    outcome, updated := api.Update(read.value);
    r := Wrote(outcome);
    assert api.calls == old(api.calls) + CallsOf(r, annotate);
  }

  // ----- the two routines -----

  /** Removes the annotation, reading the node again after a conflict; `undo` are the calls made. */
  method RemoveAnnotation(api: ApiServer, name: string) returns (updated: Option<NodeObject>, ghost undo: seq<Call>)
    requires api.Sound() && name in api.nodes
    modifies api
    ensures api.Sound() && api.Touched(name)
    ensures api.calls == old(api.calls) + undo && Undoing(undo)
    ensures api.nodes[name].cordoned == old(api.nodes)[name].cordoned
    ensures updated.Some? ==> fresh(updated.value) && updated.value.name == name
                              && updated.value.Value() == api.nodes[name] && !api.nodes[name].annotated
    ensures updated.None? ==> UndoFailed(undo) && api.faults > old(api.faults)
  {
    undo := [];
    var attempt := 1;
    while attempt <= MAX_RETRIES
      invariant 1 <= attempt <= MAX_RETRIES
      invariant api.Sound() && api.Touched(name)
      invariant api.nodes[name].cordoned == old(api.nodes)[name].cordoned
      invariant api.calls == old(api.calls) + undo && Undoing(undo) && Gets(undo) == attempt - 1
      decreases MAX_RETRIES - attempt
    {
      var r, _, written := ReadAndWrite(api, name, false);
      GetsTry(undo, r, false);
      undo := undo + CallsOf(r, false);
      if r == Wrote(Ok) {
        return written, undo;
      }
      if attempt < MAX_RETRIES && r == Wrote(Conflict) {
        attempt := attempt + 1;
        continue;
      }
      return None, undo;
    }
    assert false;
  }

  /** The annotation goes first and the cordon only after it is gone. */
  method UncordonAndRemoveAnnotation(api: ApiServer, node: NodeObject) returns (ok: bool)
    requires api.Sound() && node.name in api.nodes
    requires node.unschedulable == api.nodes[node.name].cordoned
    requires api.nodes[node.name].annotated ==> node.annotated
    modifies api, node`unschedulable
    ensures api.Sound() && api.Touched(node.name)
    ensures ok ==> api.nodes[node.name] == Flags(false, false)
    ensures old(api.calls) <= api.calls && (!ok ==> UndoFailed(api.calls[|old(api.calls)|..]))
    ensures api.faults == old(api.faults) ==> ok
  {
    var final := node;
    ghost var undo: seq<Call> := [];
    if node.annotated {
      var updated;
      updated, undo := RemoveAnnotation(api, node.name);
      if updated.None? {
        assert api.calls[|old(api.calls)|..] == undo;
        return false;
      }
      final := updated.value;
    }
    ok := CordonUncordonNode(api, final, false);
    if !ok {
      assert api.calls[|old(api.calls)|..] == undo + [Call(UncordonCall, OtherError)];
    }
  }

  /**
   * How a failed attempt left the server: the cordon call failed, with no effect unless its reply was
   * lost; or annotating was given up and then either everything was taken back or a call made to take
   * it back failed.
   */
  ghost predicate TakenBack(calls: seq<Call>, restored: bool, lost: bool) {
    || (calls == [Call(CordonCall, OtherError)] && (restored || lost))
    || (&& calls != [] && calls[0] == Call(CordonCall, Ok)
        && exists k :: 1 < k <= |calls| && GaveUp(calls[1..k]) && (restored || UndoFailed(calls[k..])))
  }

  /** Adds the annotation to a cordoned node, trying again when the node could not be read or has changed. */
  method AddAnnotation(api: ApiServer, name: string) returns (r: Try, read: Option<NodeObject>, ghost tries: seq<Call>)
    requires api.Sound() && name in api.nodes && api.nodes[name] == Flags(true, false)
    modifies api
    ensures api.Sound() && api.Touched(name)
    ensures api.calls == old(api.calls) + tries
    ensures r == Wrote(Ok) ==> api.nodes[name] == Flags(true, true)
    ensures r != Wrote(Ok) ==> GaveUp(tries) && api.faults > old(api.faults)
    ensures r.Unread? ==> api.nodes == old(api.nodes)
    ensures r.Wrote? ==>
      read.Some? && fresh(read.value) && read.value.name == name && read.value.Value() == Flags(true, true)
    ensures api.nodes[name].cordoned
  {
    tries := [];
    var attempt := 1;
    while attempt <= MAX_RETRIES
      invariant 1 <= attempt <= MAX_RETRIES
      invariant api.Sound() && api.Touched(name) && api.nodes == old(api.nodes)
      invariant api.calls == old(api.calls) + tries && Gets(tries) == attempt - 1
      decreases MAX_RETRIES - attempt
    {
      var updated;
      r, read, updated := ReadAndWrite(api, name, true);
      GetsTry(tries, r, true);
      tries := tries + CallsOf(r, true);
      if r == Wrote(Ok) {
        return;
      }
      if attempt < MAX_RETRIES && (r.Unread? || r == Wrote(Conflict)) {
        attempt := attempt + 1;
        continue;
      }
      return;
    }
    assert false;
  }

  /** Cordon, then annotate; on failure take the cordon back. */
  method CordonAndAnnotateNode(api: ApiServer, node: NodeObject) returns (ok: bool)
    requires api.Sound() && node.name in api.nodes && node.Value() == api.nodes[node.name] && !node.unschedulable
    modifies api, node`unschedulable
    ensures api.Sound() && api.Touched(node.name)
    ensures ok ==> api.nodes[node.name] == Flags(true, true)
    ensures !ok ==> TakenBack(api.calls[|old(api.calls)|..], api.nodes == old(api.nodes), api.lost > old(api.lost))
    ensures api.faults == old(api.faults) ==> ok
  {
    ok := CordonUncordonNode(api, node, true);
    if !ok {
      assert api.calls[|old(api.calls)|..] == [Call(CordonCall, OtherError)];
      return;
    }
    var r, read, tries := AddAnnotation(api, node.name);
    if r == Wrote(Ok) {
      return true;
    }
    RollBack(api, if r.Unread? then node else read.value, old(api.calls), old(api.nodes), tries);
    return false;
  }

  /** Taking back a cordon that could not be annotated; a failure of it is only logged. */
  method RollBack(api: ApiServer, node: NodeObject, ghost before: seq<Call>, ghost start: map<string, Flags>,
                  ghost tries: seq<Call>)
    requires api.Sound() && node.name in api.nodes && node.unschedulable == api.nodes[node.name].cordoned
    requires api.nodes[node.name].annotated ==> node.annotated
    requires api.calls == before + [Call(CordonCall, Ok)] + tries && GaveUp(tries)
    requires start == api.nodes[node.name := Flags(false, false)]
    modifies api, node`unschedulable
    ensures api.Sound() && api.Touched(node.name)
    ensures before <= api.calls && TakenBack(api.calls[|before|..], api.nodes == start, false)
  {
    var undone := UncordonAndRemoveAnnotation(api, node);
    ghost var all, k := api.calls[|before|..], 1 + |tries|;
    assert all[1..k] == tries && all[k..] == api.calls[|before| + k..];
    if undone {
      assert api.nodes == start;
    }
  }
}
