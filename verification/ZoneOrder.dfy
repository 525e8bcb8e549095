/** The uniform-across-zones ordering: a round-robin over zones in an arbitrary order chosen each round. */
module ZoneOrder {
  import opened Fleet

  /** The members of `s` in zone `z`, in the order of `s`. */
  function ZonePart(s: seq<Instance>, z: string): seq<Instance> {
    if s == [] then [] else
      var init, last := s[..|s| - 1], s[|s| - 1];
      if last.zone == z then ZonePart(init, z) + [last] else ZonePart(init, z)
  }

  function Reverse<T>(s: seq<T>): (r: seq<T>)
    ensures |r| == |s|
  {
    if s == [] then [] else [s[|s| - 1]] + Reverse(s[..|s| - 1])
  }

  /** No zone is more than one ahead of any zone that still has targets left. */
  ghost predicate Fair(targets: seq<Instance>, chosen: seq<Instance>) {
    forall ahead, behind ::
      |ZonePart(chosen, behind)| < |ZonePart(targets, behind)| ==>
        |ZonePart(chosen, ahead)| <= |ZonePart(chosen, behind)| + 1
  }

  ghost predicate FairThroughout(targets: seq<Instance>, chosen: seq<Instance>) {
    forall n :: 0 <= n <= |chosen| ==> Fair(targets, chosen[..n])
  }

  /** Zone by zone the order takes every target, last first, and it is fair after every pick. */
  ghost predicate IsZoneOrder(targets: seq<Instance>, order: seq<Instance>) {
    && (forall z :: ZonePart(targets, z) == Reverse(ZonePart(order, z)))
    && FairThroughout(targets, order)
  }

  // ----- the loop -----

  type Buckets = map<string, seq<Instance>>

  function Bucket(b: Buckets, z: string): seq<Instance> {
    if z in b then b[z] else []
  }

  /** Every zone's targets are those still in its bucket followed by those already taken, reversed. */
  ghost predicate Split(targets: seq<Instance>, b: Buckets, order: seq<Instance>) {
    forall z :: ZonePart(targets, z) == Bucket(b, z) + Reverse(ZonePart(order, z))
  }

  /** Within a round: zones still to visit stand at `r`, visited ones at `r + 1`, exhausted ones at no more. */
  ghost predicate Level(b: Buckets, order: seq<Instance>, r: nat, toVisit: set<string>) {
    forall z ::
      var goal := if z in toVisit then r else r + 1;
      && |ZonePart(order, z)| <= goal
      && (Bucket(b, z) != [] ==> |ZonePart(order, z)| == goal)
  }

  ghost predicate MidRound(targets: seq<Instance>, b: Buckets, order: seq<Instance>, r: nat, toVisit: set<string>) {
    && Split(targets, b, order)
    && Level(b, order, r, toVisit)
    && FairThroughout(targets, order)
  }

  method UniformAcrossZones(targets: seq<Instance>) returns (order: seq<Instance>)
    ensures IsZoneOrder(targets, order)
  {
    var buckets: Buckets := map[];
    for i := 0 to |targets|
      invariant forall z :: Bucket(buckets, z) == ZonePart(targets[..i], z)
    {
      var zone := targets[i].zone;
      assert targets[..i + 1][..i] == targets[..i];
      buckets := buckets[zone := Bucket(buckets, zone) + [targets[i]]];
    }
    assert targets[..|targets|] == targets;
    order := [];
    ghost var r := 0;
    while |order| != |targets|
      invariant MidRound(targets, buckets, order, r, buckets.Keys)
      invariant |order| <= |targets|
    {
      SomeBucketLeft(targets, buckets, order);
      buckets, order := TakeRound(targets, buckets, order, r);
      r := r + 1;
      SplitSize(targets, buckets, order);
    }
    AllTaken(targets, buckets, order);
  }

  /** One pass over the zones, in whatever order the map yields them. */
  method TakeRound(targets: seq<Instance>, b: Buckets, taken: seq<Instance>, ghost r: nat)
    returns (buckets: Buckets, order: seq<Instance>)
    requires MidRound(targets, b, taken, r, b.Keys)
    ensures MidRound(targets, buckets, order, r + 1, buckets.Keys)
    ensures taken <= order
    ensures (exists z :: z in b && b[z] != []) ==> |order| > |taken|
  {
    buckets, order := b, taken;
    var zones := b.Keys;
    while zones != {}
      invariant zones <= buckets.Keys
      invariant MidRound(targets, buckets, order, r, zones)
      invariant taken <= order
      decreases zones
    {
      var az :| az in zones;
      var size := |buckets[az]|;
      VisitZone(targets, buckets, order, az, r, zones);
      if size > 0 {
        order := order + [buckets[az][size - 1]];
        buckets := buckets[az := buckets[az][..size - 1]];
      }
      zones := zones - {az};
    }
    RoundEnd(targets, b, taken, buckets, order, r);
  }

  lemma {:induction false} ZonePartZone(s: seq<Instance>, z: string)
    ensures forall x :: x in ZonePart(s, z) ==> x.zone == z
  {
    if s != [] {
      ZonePartZone(s[..|s| - 1], z);
    }
  }

  lemma ZonePartSnoc(s: seq<Instance>, x: Instance, z: string)
    ensures ZonePart(s + [x], z) == if x.zone == z then ZonePart(s, z) + [x] else ZonePart(s, z)
  {
    assert (s + [x])[..|s|] == s;
  }

  lemma ReverseSnoc<T>(s: seq<T>, x: T)
    ensures Reverse(s + [x]) == [x] + Reverse(s)
  {
    assert (s + [x])[..|s|] == s;
  }

  /** A visit to one zone, which takes its last target if it has one. */
  lemma VisitZone(targets: seq<Instance>, b: Buckets, order: seq<Instance>, az: string, r: nat, zones: set<string>)
    requires az in zones && az in b && MidRound(targets, b, order, r, zones)
    ensures var size := |b[az]|;
      if size > 0 then MidRound(targets, b[az := b[az][..size - 1]], order + [b[az][size - 1]], r, zones - {az})
      else MidRound(targets, b, order, r, zones - {az})
  {
    var size, rest := |b[az]|, zones - {az};
    assert zones == rest + {az};
    if size > 0 {
      TakeOne(targets, b, order, az, b[az][..size - 1], b[az][size - 1], r, rest);
    } else {
      SkipEmpty(targets, b, order, az, r, rest);
    }
  }

  lemma SkipEmpty(targets: seq<Instance>, b: Buckets, order: seq<Instance>, az: string, r: nat, rest: set<string>)
    requires az in b && b[az] == [] && MidRound(targets, b, order, r, rest + {az})
    ensures MidRound(targets, b, order, r, rest)
  {
  }

  /** A finished round starts the next one, and it took something unless every bucket was already empty. */
  lemma RoundEnd(targets: seq<Instance>, b: Buckets, taken: seq<Instance>, b': Buckets, order: seq<Instance>, r: nat)
    requires MidRound(targets, b, taken, r, b.Keys) && MidRound(targets, b', order, r, {}) && taken <= order
    ensures MidRound(targets, b', order, r + 1, b'.Keys)
    ensures (exists z :: z in b && b[z] != []) ==> |order| > |taken|
  {
    if z :| z in b && b[z] != [] {
      assert |ZonePart(taken, z)| == r;
      assert |ZonePart(targets, z)| == |Bucket(b, z)| + |ZonePart(taken, z)|;
      assert |ZonePart(targets, z)| == |Bucket(b', z)| + |ZonePart(order, z)|;
      assert order != taken;
    }
  }

  /** The last target of a zone's bucket lies in that zone. */
  lemma BucketZone(targets: seq<Instance>, b: Buckets, order: seq<Instance>, az: string)
    requires az in b && b[az] != [] && Split(targets, b, order)
    ensures b[az][|b[az]| - 1].zone == az
  {
    ZonePartZone(targets, az);
    assert ZonePart(targets, az) == Bucket(b, az) + Reverse(ZonePart(order, az));
    assert ZonePart(targets, az)[|b[az]| - 1] == b[az][|b[az]| - 1];
  }

  lemma TakeSplitAt(part: seq<Instance>, init: seq<Instance>, next: Instance, done: seq<Instance>)
    requires part == init + [next] + Reverse(done)
    ensures part == init + Reverse(done + [next])
  {
    ReverseSnoc(done, next);
  }

  lemma TakeSplit(targets: seq<Instance>, b: Buckets, order: seq<Instance>, az: string, init: seq<Instance>,
                  next: Instance)
    requires az in b && b[az] == init + [next] && next.zone == az
    requires Split(targets, b, order)
    ensures Split(targets, b[az := init], order + [next])
  {
    var b' := b[az := init];
    forall z
      ensures ZonePart(targets, z) == Bucket(b', z) + Reverse(ZonePart(order + [next], z))
    {
      var part := ZonePart(targets, z);
      assert part == Bucket(b, z) + Reverse(ZonePart(order, z));
      ZonePartSnoc(order, next, z);
      if z == az {
        TakeSplitAt(part, init, next, ZonePart(order, z));
      }
    }
  }

  lemma TakeLevel(b: Buckets, order: seq<Instance>, az: string, init: seq<Instance>, next: Instance, r: nat,
                  rest: set<string>)
    requires az in b && b[az] == init + [next] && next.zone == az && az !in rest
    requires Level(b, order, r, rest + {az})
    ensures Level(b[az := init], order + [next], r, rest)
  {
    forall z
      ensures |ZonePart(order + [next], z)| == |ZonePart(order, z)| + (if z == az then 1 else 0)
    {
      ZonePartSnoc(order, next, z);
    }
  }

  lemma FairSnoc(targets: seq<Instance>, order: seq<Instance>, next: Instance)
    requires FairThroughout(targets, order) && Fair(targets, order + [next])
    ensures FairThroughout(targets, order + [next])
  {
    var longer := order + [next];
    forall n | 0 <= n <= |longer|
      ensures Fair(targets, longer[..n])
    {
      assert longer[..n] == if n <= |order| then order[..n] else longer;
    }
  }

  lemma TakeOne(targets: seq<Instance>, b: Buckets, order: seq<Instance>, az: string, init: seq<Instance>,
                next: Instance,
                r: nat, rest: set<string>)
    requires az in b && b[az] == init + [next] && az !in rest
    requires MidRound(targets, b, order, r, rest + {az})
    ensures MidRound(targets, b[az := init], order + [next], r, rest)
  {
    BucketZone(targets, b, order, az);
    TakeSplit(targets, b, order, az, init, next);
    TakeLevel(b, order, az, init, next, r, rest);
    LevelIsFair(targets, b[az := init], order + [next], r, rest);
    FairSnoc(targets, order, next);
  }

  lemma LevelIsFair(targets: seq<Instance>, b: Buckets, order: seq<Instance>, r: nat, rest: set<string>)
    requires Split(targets, b, order) && Level(b, order, r, rest)
    ensures Fair(targets, order)
  {
    forall ahead, behind | |ZonePart(order, behind)| < |ZonePart(targets, behind)|
      ensures |ZonePart(order, ahead)| <= |ZonePart(order, behind)| + 1
    {
      assert ZonePart(targets, behind) == Bucket(b, behind) + Reverse(ZonePart(order, behind));
      assert |ZonePart(order, ahead)| <= r + 1;
    }
  }

  // ----- the order is a permutation -----

  lemma {:induction false} ReverseMultiset<T>(s: seq<T>)
    ensures multiset(Reverse(s)) == multiset(s)
  {
    if s != [] {
      ReverseMultiset(s[..|s| - 1]);
      assert s == s[..|s| - 1] + [s[|s| - 1]];
    }
  }

  lemma {:induction false} ZonePartCount(s: seq<Instance>, x: Instance)
    ensures multiset(ZonePart(s, x.zone))[x] == multiset(s)[x]
  {
    if s != [] {
      ZonePartCount(s[..|s| - 1], x);
      assert s == s[..|s| - 1] + [s[|s| - 1]];
    }
  }

  lemma SplitCount(targets: seq<Instance>, b: Buckets, order: seq<Instance>, x: Instance)
    requires Split(targets, b, order)
    ensures multiset(targets)[x] == multiset(Bucket(b, x.zone))[x] + multiset(order)[x]
  {
    ZonePartCount(targets, x);
    ZonePartCount(order, x);
    ReverseMultiset(ZonePart(order, x.zone));
    assert ZonePart(targets, x.zone) == Bucket(b, x.zone) + Reverse(ZonePart(order, x.zone));
  }

  lemma SplitSize(targets: seq<Instance>, b: Buckets, order: seq<Instance>)
    requires Split(targets, b, order)
    ensures multiset(order) <= multiset(targets) && |order| <= |targets|
  {
    forall x
      ensures multiset(order)[x] <= multiset(targets)[x]
    {
      SplitCount(targets, b, order, x);
    }
    assert multiset(targets) == multiset(order) + (multiset(targets) - multiset(order));
  }

  lemma SomeBucketLeft(targets: seq<Instance>, b: Buckets, order: seq<Instance>)
    requires Split(targets, b, order) && |order| != |targets|
    ensures exists z :: z in b && b[z] != []
  {
    SplitSize(targets, b, order);
    var left := multiset(targets) - multiset(order);
    assert multiset(targets) == multiset(order) + left;
    assert |left| == |targets| - |order|;
    var x :| x in left;
    SplitCount(targets, b, order, x);
    assert x in multiset(Bucket(b, x.zone));
  }

  lemma AllTaken(targets: seq<Instance>, b: Buckets, order: seq<Instance>)
    requires Split(targets, b, order) && |order| == |targets|
    ensures forall z :: ZonePart(targets, z) == Reverse(ZonePart(order, z))
  {
    SplitSize(targets, b, order);
    var left := multiset(targets) - multiset(order);
    assert multiset(targets) == multiset(order) + left;
    assert |left| == 0;
    forall z
      ensures ZonePart(targets, z) == Reverse(ZonePart(order, z))
    {
      if Bucket(b, z) != [] {
        var x := Bucket(b, z)[0];
        ZonePartZone(targets, z);
        assert ZonePart(targets, z)[0] == x;
        SplitCount(targets, b, order, x);
        assert false;
      }
    }
  }

  /** Any order that empties every zone last-first is a rearrangement of the targets. */
  lemma ZoneOrderIsPermutation(targets: seq<Instance>, order: seq<Instance>)
    requires IsZoneOrder(targets, order)
    ensures multiset(order) == multiset(targets) && |order| == |targets|
  {
    forall x
      ensures multiset(targets)[x] == multiset(order)[x]
    {
      ZonePartCount(targets, x);
      ZonePartCount(order, x);
      ReverseMultiset(ZonePart(order, x.zone));
    }
    assert multiset(targets) == multiset(order);
  }

  lemma OrderMembers(targets: seq<Instance>, order: seq<Instance>)
    requires IsZoneOrder(targets, order)
    ensures forall i :: i in order <==> i in targets
  {
    ZoneOrderIsPermutation(targets, order);
    forall i
      ensures i in order <==> i in targets
    {
      assert i in order <==> i in multiset(order);
      assert i in targets <==> i in multiset(targets);
    }
  }
}
