/** The batch a reconcile passes on: its contents, and why it is never empty while there is drift. */
module Batch {
  import opened Common
  import opened BatchSize
  import opened Fleet
  import opened ZoneOrder
  import opened Selection

  // ----- selection inside RotateNodes, with the fallback to drain-failed instances -----

  function CleanTags(c: Cloud): Tags {
    UntagInProgress(c.tags, Orphans(c.snap, TaggedListing(c, InProgress)))
  }

  function InProgressTargets(c: Cloud): seq<Instance> {
    Resolve(c.snap, Pick(TaggedListing(c, InProgress), Owned(c.snap, TaggedListing(c, InProgress))))
  }

  function UnprocessedTargets(c: Cloud, excluded: set<InstanceId>): seq<Instance> {
    Resolve(c.snap, Pick(Once(c.listing), Unprocessed(c.snap, c.listing, CleanTags(c), excluded)))
  }

  function FailedDrains(c: Cloud): set<InstanceId> {
    Elems(TaggedListing(c, FailedDrain))
  }

  /** Drain-failed instances are left out, unless nothing else is there to select. */
  function Exclusions(c: Cloud): set<InstanceId> {
    if InProgressTargets(c) == [] && UnprocessedTargets(c, FailedDrains(c)) == [] then {} else FailedDrains(c)
  }

  ghost predicate IsBatch(st: Accepted, c: Cloud, batch: seq<Instance>) {
    IsChoice(KindOf(Defaulted(st).kind), BatchLimit(st, c.snap.group.desired),
             InProgressTargets(c), UnprocessedTargets(c, Exclusions(c)), batch)
  }

  /** Which calls succeed: the listing of drain-failed instances, and both calls of either selection. */
  datatype Success = Success(failed: bool, untag: bool, list: bool, untagAgain: bool, listAgain: bool)

  const ALL := Success(true, true, true, true, true)

  /**
   * RotateNodes up to the batch: the listings, one selection and perhaps a second. When every call
   * succeeds the batch is the one defined above; whichever fail, it consists of staying members of the
   * group and the tags are the old ones or cleaned up.
   */
  method SelectBatch(st: Accepted, s: Snapshot, live: set<InstanceId>, ec2: Ec2, works: Success)
    returns (batch: seq<Instance>)
    modifies ec2
    ensures var c := old(Cloud(s, ec2.listing, live, ec2.tags));
      && (works == ALL ==> IsBatch(st, c, batch) && ec2.tags == CleanTags(c))
      && (ec2.tags == c.tags || ec2.tags == CleanTags(c))
    ensures forall i :: i in batch ==> i in s.group.instances && !i.lifecycle.Leaving()
  {
    var c := Cloud(s, ec2.listing, live, ec2.tags);
    var failed := if works.failed then TaggedListing(c, FailedDrain) else [];
    var tagged := TaggedListing(c, InProgress);
    batch := SelectTargets(st, s, ec2, tagged, failed, works.untag, works.list);
    ghost var first := batch;
    if |batch| == 0 && |failed| > 0 {
      UntagAgain(c.tags, Orphans(s, tagged));
      batch := SelectTargets(st, s, ec2, tagged, [], works.untagAgain, works.listAgain);
    }
    if works == ALL {
      FallbackIsBatch(st, c, failed, first, batch);
    }
  }

  lemma UntagAgain(tags: Tags, ids: set<InstanceId>)
    ensures UntagInProgress(UntagInProgress(tags, ids), ids) == UntagInProgress(tags, ids)
  {
  }

  /** A first selection without the drain-failed instances, and when it is empty for lack of others, one with them. */
  lemma FallbackIsBatch(st: Accepted, c: Cloud, failed: seq<InstanceId>, first: seq<Instance>, batch: seq<Instance>)
    requires Elems(failed) == FailedDrains(c)
    requires IsChoice(KindOf(Defaulted(st).kind), BatchLimit(st, c.snap.group.desired),
                      InProgressTargets(c), UnprocessedTargets(c, FailedDrains(c)), first)
    requires if first == [] && failed != [] then
               IsChoice(KindOf(Defaulted(st).kind), BatchLimit(st, c.snap.group.desired),
                        InProgressTargets(c), UnprocessedTargets(c, Elems([])), batch)
             else batch == first
    ensures IsBatch(st, c, batch)
  {
    EmptyChoice(KindOf(Defaulted(st).kind), BatchLimit(st, c.snap.group.desired),
                InProgressTargets(c), UnprocessedTargets(c, FailedDrains(c)), first);
    assert Elems<InstanceId>([]) == {};
    assert failed == [] ==> FailedDrains(c) == {};
  }

  /** A recognised strategy returns nothing only when there is nothing to choose from. */
  lemma EmptyChoice(kind: Kind, k: nat, inProgress: seq<Instance>, unprocessed: seq<Instance>, batch: seq<Instance>)
    requires k >= 1 && IsChoice(kind, k, inProgress, unprocessed, batch)
    ensures kind != Unrecognised ==> (batch == [] <==> inProgress == [] && unprocessed == [])
    ensures kind == Unrecognised ==> batch == []
  {
    if kind == Uniform {
      var o :| IsZoneOrder(unprocessed, o) && batch == Take(inProgress + o, k);
      ZoneOrderIsPermutation(unprocessed, o);
    }
  }

  // ----- what the pools are -----

  /** Group members with distinct IDs, and members that stay are pending or running. */
  ghost predicate Consistent(c: Cloud) {
    && DistinctIds(c.snap.group.instances)
    && forall id :: id in c.listing && Candidate(c.snap, id) ==> id in c.live
  }

  /** Besides, every instance is listed once. */
  ghost predicate WellFormed(c: Cloud) {
    Consistent(c) && Distinct(c.listing)
  }

  /** The instance is tagged in progress and has a node, so that a later selection keeps it in front. */
  predicate Held(c: Cloud, id: InstanceId) {
    Marked(c.tags, id, InProgress) && HasNode(c.snap, id)
  }

  ghost function OwnedIds(c: Cloud): set<InstanceId> {
    set id | id in c.listing && Candidate(c.snap, id) && Held(c, id)
  }

  ghost function FreshIds(c: Cloud, excluded: set<InstanceId>): set<InstanceId> {
    set id | id in c.listing && Candidate(c.snap, id) && Drifted(c.snap, id) && !Held(c, id) && id !in excluded
  }

  ghost function InProgressIds(c: Cloud): seq<InstanceId> {
    Pick(c.listing, OwnedIds(c))
  }

  ghost function UnprocessedIds(c: Cloud, excluded: set<InstanceId>): seq<InstanceId> {
    Pick(c.listing, FreshIds(c, excluded))
  }

  /** The pools of any cloud; only the unprocessed one is free of repetition by itself. */
  lemma PoolsOf(c: Cloud, excluded: set<InstanceId>)
    requires Consistent(c)
    ensures InProgressTargets(c) == Resolve(c.snap, InProgressIds(c))
    ensures UnprocessedTargets(c, excluded) == Resolve(c.snap, Pick(Once(c.listing), FreshIds(c, excluded)))
  {
    var live := set id | id in c.listing && id in c.live && Marked(c.tags, id, InProgress);
    var tagged := TaggedListing(c, InProgress);
    PickTwice(c.listing, live, Owned(c.snap, tagged));
    assert live * Owned(c.snap, tagged) == OwnedIds(c);
    assert Unprocessed(c.snap, c.listing, CleanTags(c), excluded) == FreshIds(c, excluded);
  }

  lemma PoolsAre(c: Cloud, excluded: set<InstanceId>)
    requires WellFormed(c)
    ensures InProgressTargets(c) == Resolve(c.snap, InProgressIds(c))
    ensures UnprocessedTargets(c, excluded) == Resolve(c.snap, UnprocessedIds(c, excluded))
  {
    PoolsOf(c, excluded);
    OnceSame(c.listing);
  }

  /**
   * Before truncation the selection holds exactly the staying members that are in progress with a
   * node, then exactly the staying, drifted, non-excluded members that are not. However often the
   * other instances are listed, no ID occurs twice, including those of orphans whose tag was removed
   * on the way, exactly when none of the in-progress targets is listed twice.
   */
  lemma SelectionExact(c: Cloud, excluded: set<InstanceId>)
    requires Consistent(c)
    ensures var p, q := InProgressTargets(c), UnprocessedTargets(c, excluded);
      && (DistinctIds(p + q) <==> Distinct(InProgressIds(c)))
      && (forall i :: i in p <==> i in c.snap.group.instances && i.id in c.listing
                                  && !i.lifecycle.Leaving() && Held(c, i.id))
      && (forall i :: i in q <==> i in c.snap.group.instances && i.id in c.listing && !Held(c, i.id)
                                  && IsInstanceDrifted(c.snap, i) && i.id !in excluded)
  {
    PoolsDistinct(c, excluded);
    PoolsOf(c, excluded);
    ResolveMembers(c, InProgressIds(c));
    ResolveMembers(c, Pick(Once(c.listing), FreshIds(c, excluded)));
    OnceElems(c.listing);
    assert forall id :: id in c.listing <==> id in Elems(Once(c.listing));
    forall i | i in c.snap.group.instances
      ensures i.id in OwnedIds(c) <==> i.id in c.listing && !i.lifecycle.Leaving() && Held(c, i.id)
      ensures i.id in FreshIds(c, excluded) <==>
              i.id in c.listing && !Held(c, i.id) && IsInstanceDrifted(c.snap, i) && i.id !in excluded
    {
      SelectsTheMember(c.snap.group.instances, i);
    }
  }

  lemma PoolsDistinct(c: Cloud, excluded: set<InstanceId>)
    requires Consistent(c)
    ensures DistinctIds(InProgressTargets(c) + UnprocessedTargets(c, excluded)) <==> Distinct(InProgressIds(c))
  {
    PoolsOf(c, excluded);
    var p, q := InProgressIds(c), Pick(Once(c.listing), FreshIds(c, excluded));
    OnceDistinct(c.listing);
    PickDistinct(Once(c.listing), FreshIds(c, excluded));
    assert Elems(p) !! Elems(q);
    if Distinct(p) {
      DistinctConcat(p, q);
    }
    ResolveDistinct(c.snap, p, q);
  }

  lemma ResolveDistinct(s: Snapshot, p: seq<InstanceId>, q: seq<InstanceId>)
    requires forall id :: id in p || id in q ==> Member(s, id).Some?
    ensures Distinct(p + q) ==> DistinctIds(Resolve(s, p) + Resolve(s, q))
    ensures DistinctIds(Resolve(s, p) + Resolve(s, q)) ==> Distinct(p)
  {
    var ids, all := p + q, Resolve(s, p) + Resolve(s, q);
    assert forall k :: 0 <= k < |ids| ==> all[k].id == ids[k];
    if DistinctIds(all) {
      forall i, j | 0 <= i < j < |p|
        ensures p[i] != p[j]
      {
        assert all[i].id == p[i] && all[j].id == p[j];
      }
    }
  }

  /** A listing without repetition repeats no target. */
  lemma PoolsDistinctIfListed(c: Cloud, excluded: set<InstanceId>)
    requires WellFormed(c)
    ensures DistinctIds(InProgressTargets(c) + UnprocessedTargets(c, excluded))
  {
    PickDistinct(c.listing, OwnedIds(c));
    PoolsDistinct(c, excluded);
  }

  lemma ResolveMembers(c: Cloud, ids: seq<InstanceId>)
    requires Consistent(c) && forall id :: id in ids ==> Member(c.snap, id).Some?
    ensures forall i :: i in Resolve(c.snap, ids) <==> i in c.snap.group.instances && i.id in ids
  {
    var r := Resolve(c.snap, ids);
    forall i
      ensures i in r <==> i in c.snap.group.instances && i.id in ids
    {
      if i in c.snap.group.instances && i.id in ids {
        SelectsTheMember(c.snap.group.instances, i);
        var k :| 0 <= k < |ids| && ids[k] == i.id;
        assert r[k] == i;
      }
      if i in r {
        var k :| 0 <= k < |r| && r[k] == i;
        assert ids[k] in ids;
      }
    }
  }

  /**
   * Never stuck: when some instance of the group is drifted and the listing covers the group, a
   * recognised strategy gets a non-empty batch, whatever the tags say. An accepted strategy that is
   * not recognised always gets an empty one.
   */
  lemma DriftGivesBatch(st: Accepted, c: Cloud, batch: seq<Instance>)
    requires Consistent(c) && IsBatch(st, c, batch)
    requires DriftedIds(c.snap) != {}
    requires forall i :: i in c.snap.group.instances ==> i.id in c.listing
    ensures batch != [] <==> KindOf(Defaulted(st).kind) != Unrecognised
  {
    var i :| i in c.snap.group.instances && IsInstanceDrifted(c.snap, i);
    SelectionExact(c, {});
    SelectionExact(c, FailedDrains(c));
    assert i in InProgressTargets(c) || i in UnprocessedTargets(c, {});
    EmptyChoice(KindOf(Defaulted(st).kind), BatchLimit(st, c.snap.group.desired),
                InProgressTargets(c), UnprocessedTargets(c, Exclusions(c)), batch);
  }

  /**
   * An instance whose drain failed is selected only when nothing else is left: if the batch holds one,
   * then every listed drifted member of the group is tagged drain-failed.
   */
  lemma FailedDrainsLast(st: Accepted, c: Cloud, batch: seq<Instance>, i: Instance, other: Instance)
    requires Consistent(c) && IsBatch(st, c, batch) && i in batch && Marked(c.tags, i.id, FailedDrain)
    requires other in c.snap.group.instances && other.id in c.listing && IsInstanceDrifted(c.snap, other)
    ensures Marked(c.tags, other.id, FailedDrain)
  {
    var p, q := InProgressTargets(c), UnprocessedTargets(c, Exclusions(c));
    ChoiceWithin(KindOf(Defaulted(st).kind), BatchLimit(st, c.snap.group.desired), p, q, batch);
    SelectionExact(c, Exclusions(c));
    SelectionExact(c, FailedDrains(c));
    SelectsTheMember(c.snap.group.instances, i);
    SelectsTheMember(c.snap.group.instances, other);
    assert i in q && i.id in c.live;
    assert i.id in FailedDrains(c);
    assert other !in p && other !in UnprocessedTargets(c, FailedDrains(c));
  }

  /**
   * What selection does to the tags: the in-progress tag goes from exactly those pending or running
   * instances that are no members of the group, or are staying members without a node. Members that
   * are leaving keep it, and no other tag is touched.
   */
  lemma CleanTagsExact(c: Cloud, id: InstanceId)
    ensures var gone := id in c.listing && id in c.live && Marked(c.tags, id, InProgress)
                  && match Member(c.snap, id) {
                       case None => true
                       case Some(i) => !i.lifecycle.Leaving() && SelectNodeByInstanceID(id, c.snap.nodes).None?
                     };
      && (id in CleanTags(c) <==> id in c.tags && !gone)
      && (id in CleanTags(c) ==> CleanTags(c)[id] == c.tags[id])
  {
    assert id in TaggedListing(c, InProgress) <==> id in c.listing && id in c.live && Marked(c.tags, id, InProgress);
  }

  /**
   * Selection for one group strips the in-progress tag from every pending or running instance that
   * is not a member of it, so two upgrades running together undo each other's tags.
   */
  lemma ForeignTagRemoved(c: Cloud, id: InstanceId)
    requires id in c.listing && id in c.live && Marked(c.tags, id, InProgress) && Member(c.snap, id).None?
    ensures id !in CleanTags(c)
  {
    assert id in TaggedListing(c, InProgress);
  }
}
