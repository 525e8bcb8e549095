/** Choosing the batch of instances to rotate, with the tag clean-up it performs on the way. */
module Selection {
  import opened Common
  import opened BatchSize
  import opened Fleet
  import opened ZoneOrder

  /** The values of the controller's state tag; an instance absent from the tag map carries none. */
  datatype Tag = InProgress | FailedDrain | OtherTag

  type Tags = map<InstanceId, Tag>

  /** `listing` is the order in which the instances are listed; `live` are those pending or running. */
  datatype Cloud = Cloud(snap: Snapshot, listing: seq<InstanceId>, live: set<InstanceId>, tags: Tags)

  predicate Marked(tags: Tags, id: InstanceId, t: Tag) {
    id in tags && tags[id] == t
  }

  function UntagInProgress(tags: Tags, ids: set<InstanceId>): Tags {
    map id | id in tags && !(id in ids && tags[id] == InProgress) :: tags[id]
  }

  function TagInProgress(tags: Tags, ids: set<InstanceId>): Tags {
    tags + map id | id in ids :: InProgress
  }

  /** DescribeTaggedInstanceIDs: pending or running instances whose tag has the value. */
  function TaggedListing(c: Cloud, t: Tag): seq<InstanceId> {
    Pick(c.listing, set id | id in c.listing && id in c.live && Marked(c.tags, id, t))
  }

  function Unmarked(listing: seq<InstanceId>, tags: Tags): set<InstanceId> {
    set id | id in listing && !Marked(tags, id, InProgress)
  }

  /** DescribeInstancesWithoutTagValue: instances in any state that do not carry the value. */
  function UntaggedListing(listing: seq<InstanceId>, tags: Tags): seq<InstanceId> {
    Pick(listing, Unmarked(listing, tags))
  }

  function Member(s: Snapshot, id: InstanceId): Option<Instance> {
    SelectScalingGroupInstance(id, s.group.instances)
  }

  /** A member of the group that is not on its way out. */
  predicate Candidate(s: Snapshot, id: InstanceId) {
    Member(s, id).Some? && !Member(s, id).value.lifecycle.Leaving()
  }

  predicate HasNode(s: Snapshot, id: InstanceId) {
    SelectNodeByInstanceID(id, s.nodes).Some?
  }

  predicate Drifted(s: Snapshot, id: InstanceId) {
    Member(s, id).Some? && IsInstanceDrifted(s, Member(s, id).value)
  }

  function Resolve(s: Snapshot, ids: seq<InstanceId>): (r: seq<Instance>)
    requires forall id :: id in ids ==> Member(s, id).Some?
    ensures |r| == |ids| && forall i :: 0 <= i < |ids| ==> Member(s, ids[i]) == Some(r[i]) && r[i].id == ids[i]
  {
    seq(|ids|, i requires 0 <= i < |ids| => Member(s, ids[i]).value)
  }

  lemma ResolveSnoc(s: Snapshot, ids: seq<InstanceId>, i: nat, keep: set<InstanceId>)
    requires i < |ids| && forall id :: id in keep ==> Member(s, id).Some?
    ensures Resolve(s, Pick(ids[..i + 1], keep)) ==
            Resolve(s, Pick(ids[..i], keep)) + if ids[i] in keep then [Member(s, ids[i]).value] else []
  {
    PickSnoc(ids, i, keep);
  }

  // ----- one call of SelectTargets -----

  function Owned(s: Snapshot, tagged: seq<InstanceId>): set<InstanceId> {
    set id | id in tagged && Candidate(s, id) && HasNode(s, id)
  }

  function Orphans(s: Snapshot, tagged: seq<InstanceId>): set<InstanceId> {
    set id | id in tagged && (Member(s, id).None? || (Candidate(s, id) && !HasNode(s, id)))
  }

  function Unprocessed(s: Snapshot, listing: seq<InstanceId>, tags: Tags, excluded: set<InstanceId>): set<InstanceId> {
    set id | id in listing && !Marked(tags, id, InProgress) && Candidate(s, id) && Drifted(s, id) && id !in excluded
  }

  /** What may be returned, given the in-progress targets and the unprocessed ones. */
  ghost predicate IsChoice(kind: Kind, k: nat, inProgress: seq<Instance>, unprocessed: seq<Instance>,
                           batch: seq<Instance>) {
    match kind
    case Random => batch == Take(inProgress + unprocessed, k)
    case Uniform => exists o :: IsZoneOrder(unprocessed, o) && batch == Take(inProgress + o, k)
    case Unrecognised => batch == []
  }

  /** EC2 as the controller changes it: only the state tag. */
  class Ec2 {
    const listing: seq<InstanceId>
    var tags: Tags

    constructor (listing: seq<InstanceId>, tags: Tags)
      ensures this.listing == listing && this.tags == tags
    {
      this.listing := listing;
      this.tags := tags;
    }

    method UntagInstances(ids: seq<InstanceId>, works: bool) returns (ok: bool)
      modifies this
      ensures ok == works
      ensures tags == if works then UntagInProgress(old(tags), Elems(ids)) else old(tags)
    {
      ok := works;
      if works {
        tags := UntagInProgress(tags, Elems(ids));
      }
    }
  }

  method SelectTargets(st: Accepted, s: Snapshot, ec2: Ec2, tagged: seq<InstanceId>, excluded: seq<InstanceId>,
                       untagWorks: bool, listWorks: bool)
    returns (batch: seq<Instance>)
    modifies ec2
    ensures ec2.tags == if untagWorks then UntagInProgress(old(ec2.tags), Orphans(s, tagged)) else old(ec2.tags)
    ensures !listWorks ==> batch == []
    ensures listWorks ==>
      IsChoice(KindOf(Defaulted(st).kind), BatchLimit(st, s.group.desired),
               Resolve(s, Pick(tagged, Owned(s, tagged))),
               Resolve(s, Pick(Once(ec2.listing), Unprocessed(s, ec2.listing, ec2.tags, Elems(excluded)))),
               batch)
    ensures forall i :: i in batch ==> i in s.group.instances && !i.lifecycle.Leaving()
  {
    var size := BatchLimit(st, s.group.desired);
    ghost var owned, orphaned := Owned(s, tagged), Orphans(s, tagged);
    var inProgress: seq<Instance>, orphans: seq<InstanceId> := [], [];
    for i := 0 to |tagged|
      invariant ec2.tags == old(ec2.tags)
      invariant inProgress == Resolve(s, Pick(tagged[..i], owned))
      invariant orphans == Pick(tagged[..i], orphaned)
    {
      ResolveSnoc(s, tagged, i, owned);
      PickSnoc(tagged, i, orphaned);
      match Member(s, tagged[i]) {
        case Some(selected) =>
          if !selected.lifecycle.Leaving() {
            if HasNode(s, tagged[i]) {
              inProgress := inProgress + [selected];
            } else {
              orphans := orphans + [tagged[i]];
            }
          }
        case None =>
          orphans := orphans + [tagged[i]];
      }
    }
    assert tagged[..|tagged|] == tagged;
    assert Elems(orphans) == orphaned;
    if |orphans| > 0 {
      var _ := ec2.UntagInstances(orphans, untagWorks);
    } else {
      assert orphaned == {} && UntagInProgress(ec2.tags, {}) == ec2.tags;
    }
    if !listWorks {
      return [];
    }
    var untagged := UntaggedListing(ec2.listing, ec2.tags);
    var unprocessed := CollectUnprocessed(s, ec2.listing, ec2.tags, untagged, excluded);
    match KindOf(Defaulted(st).kind) {
      case Random =>
        batch := Take(inProgress + unprocessed, size);
      case Uniform =>
        var o := UniformAcrossZones(unprocessed);
        batch := Take(inProgress + o, size);
      case Unrecognised =>
        batch := [];
    }
    StayingChoice(KindOf(Defaulted(st).kind), size, s, Pick(tagged, owned),
                  Pick(Once(ec2.listing), Unprocessed(s, ec2.listing, ec2.tags, Elems(excluded))), batch);
  }

  /** The duplicate test of the loop below: an ID was kept before exactly when it was met before and is one to keep. */
  lemma KeptBefore(s: Snapshot, ids: seq<InstanceId>, keep: set<InstanceId>, id: InstanceId)
    requires forall x :: x in keep ==> Member(s, x).Some?
    ensures (exists t :: t in Resolve(s, Pick(Once(ids), keep)) && t.id == id) <==> id in ids && id in keep
  {
    var kept := Pick(Once(ids), keep);
    var r := Resolve(s, kept);
    OnceElems(ids);
    assert id in kept <==> id in Elems(ids) && id in keep;
    if id in kept {
      var k :| 0 <= k < |kept| && kept[k] == id;
      assert r[k] in r;
    }
    forall t | t in r
      ensures t.id in kept
    {
      var k :| 0 <= k < |r| && r[k] == t;
      assert kept[k] in kept;
    }
  }

  lemma KeepSnoc(s: Snapshot, ids: seq<InstanceId>, i: nat, keep: set<InstanceId>)
    requires i < |ids| && forall id :: id in keep ==> Member(s, id).Some?
    ensures Resolve(s, Pick(Once(ids[..i + 1]), keep)) ==
            Resolve(s, Pick(Once(ids[..i]), keep)) +
            if ids[i] in keep && ids[i] !in ids[..i] then [Member(s, ids[i]).value] else []
  {
    assert ids[..i + 1] == ids[..i] + [ids[i]];
    OnceSnoc(ids[..i], ids[i]);
    PickLast(Once(ids[..i]), ids[i], keep);
    if ids[i] in keep {
      ResolveLast(s, Pick(Once(ids[..i]), keep), ids[i]);
    }
  }

  lemma ResolveLast(s: Snapshot, init: seq<InstanceId>, last: InstanceId)
    requires Member(s, last).Some? && forall id :: id in init ==> Member(s, id).Some?
    ensures Resolve(s, init + [last]) == Resolve(s, init) + [Member(s, last).value]
  {
  }

  /** The second loop of SelectTargets: drifted, staying, not seen before, not excluded. */
  method CollectUnprocessed(s: Snapshot, ghost listing: seq<InstanceId>, ghost tags: Tags, untagged: seq<InstanceId>,
                            excluded: seq<InstanceId>)
    returns (unprocessed: seq<Instance>)
    requires untagged == UntaggedListing(listing, tags)
    ensures unprocessed == Resolve(s, Pick(Once(listing), Unprocessed(s, listing, tags, Elems(excluded))))
  {
    ghost var keep := Unprocessed(s, listing, tags, Elems(excluded));
    unprocessed := [];
    for i := 0 to |untagged|
      invariant unprocessed == Resolve(s, Pick(Once(untagged[..i]), keep))
    {
      KeepSnoc(s, untagged, i, keep);
      KeptBefore(s, untagged[..i], keep, untagged[i]);
      assert untagged[i] in untagged;
      assert untagged[i] in keep <==> Candidate(s, untagged[i]) && Drifted(s, untagged[i]) && untagged[i] !in excluded;
      match Member(s, untagged[i]) {
        case Some(selected) =>
          if IsInstanceDrifted(s, selected) && !selected.lifecycle.Leaving() {
            if (forall t :: t in unprocessed ==> t.id != selected.id) && selected.id !in excluded {
              unprocessed := unprocessed + [selected];
            }
          }
        case None =>
      }
    }
    assert untagged[..|untagged|] == untagged;
    OncePick(listing, Unmarked(listing, tags));
    PickTwice(Once(listing), Unmarked(listing, tags), keep);
    PickSame(Once(listing), Unmarked(listing, tags) * keep, keep);
  }

  /** Whatever the strategy, a choice comes from the two pools. */
  lemma ChoiceWithin(kind: Kind, k: nat, p: seq<Instance>, q: seq<Instance>, batch: seq<Instance>)
    requires IsChoice(kind, k, p, q, batch)
    ensures forall i :: i in batch ==> i in p || i in q
  {
    if kind == Uniform {
      var o :| IsZoneOrder(q, o) && batch == Take(p + o, k);
      OrderMembers(q, o);
    }
  }

  lemma ResolveStaying(s: Snapshot, ids: seq<InstanceId>)
    requires forall id :: id in ids ==> Candidate(s, id)
    ensures forall id :: id in ids ==> Member(s, id).Some?
    ensures forall i :: i in Resolve(s, ids) ==> i in s.group.instances && !i.lifecycle.Leaving()
  {
    assert forall id :: id in ids ==> Candidate(s, id) && Member(s, id).Some? && !Member(s,
                                                id).value.lifecycle.Leaving();
    var r := Resolve(s, ids);
    forall i | i in r
      ensures i in s.group.instances && !i.lifecycle.Leaving()
    {
      var k :| 0 <= k < |r| && r[k] == i;
      assert ids[k] in ids;
    }
  }

  /** What is selected are members of the group that stay. */
  lemma StayingChoice(kind: Kind, k: nat, s: Snapshot, p: seq<InstanceId>, q: seq<InstanceId>, batch: seq<Instance>)
    requires forall id :: id in p || id in q ==> Member(s, id).Some?
    requires (forall id :: id in p ==> Candidate(s, id)) && (forall id :: id in q ==> Candidate(s, id))
    requires IsChoice(kind, k, Resolve(s, p), Resolve(s, q), batch)
    ensures forall i :: i in batch ==> i in s.group.instances && !i.lifecycle.Leaving()
  {
    ChoiceWithin(kind, k, Resolve(s, p), Resolve(s, q), batch);
    ResolveStaying(s, p);
    ResolveStaying(s, q);
  }
}
