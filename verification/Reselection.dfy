/** Selecting again while a drain round is open: exactly when the set of instances does not move. */
module Reselection {
  import opened Common
  import opened BatchSize
  import opened Fleet
  import opened ZoneOrder
  import opened ZoneLevels
  import opened Selection
  import opened Batch
  import opened Stability

  // ----- the size of a batch -----

  lemma TakeCard<T>(s: seq<T>, k: nat)
    requires Distinct(s)
    ensures |Elems(Take(s, k))| == if k < |s| then k else |s|
  {
    DistinctPrefix(s, k);
    DistinctCard(Take(s, k));
  }

  lemma PickPair<T>(l: seq<T>, p: set<T>, q: set<T>)
    requires Distinct(l) && p !! q && p <= Elems(l) && q <= Elems(l)
    ensures Distinct(Pick(l, p) + Pick(l, q)) && |Pick(l, p) + Pick(l, q)| == |p| + |q|
  {
    PickDistinct(l, p);
    PickDistinct(l, q);
    PickLength(l, p);
    PickLength(l, q);
    assert Elems(l) * p == p && Elems(l) * q == q;
    DistinctConcat(Pick(l, p), Pick(l, q));
  }

  lemma UniformCount(c: Cloud, e: set<InstanceId>, o: seq<Instance>, k: nat)
    requires WellFormed(c) && IsZoneOrder(UnprocessedTargets(c, e), o)
    ensures var pool := |OwnedIds(c)| + |FreshIds(c, e)|;
      |Ids(Take(InProgressTargets(c) + o, k))| == if k < pool then k else pool
  {
    var p := InProgressTargets(c);
    UniformIds(c, e, o);
    TakeIds(p, o, k);
    var ids := IdSeq(p) + IdSeq(o);
    TakeCard(ids, k);
    DistinctCard(ids);
    ElemsConcat(IdSeq(p), IdSeq(o));
    assert OwnedIds(c) !! FreshIds(c, e);
    assert |ids| == |OwnedIds(c) + FreshIds(c, e)|;
  }

  /** A recognised strategy fills the batch as far as the two pools reach. */
  lemma BatchCount(st: Accepted, c: Cloud, b: seq<Instance>)
    requires WellFormed(c) && IsBatch(st, c, b) && KindOf(Defaulted(st).kind) != Unrecognised
    ensures var pool := |OwnedIds(c)| + |FreshIds(c, Exclusions(c))|;
      var k := BatchLimit(st, c.snap.group.desired);
      |Ids(b)| == if k < pool then k else pool
  {
    var e, k := Exclusions(c), BatchLimit(st, c.snap.group.desired);
    if KindOf(Defaulted(st).kind) == Random {
      RandomIds(c, e, k);
      assert OwnedIds(c) <= Elems(c.listing) && FreshIds(c, e) <= Elems(c.listing);
      PickPair(c.listing, OwnedIds(c), FreshIds(c, e));
      TakeCard(InProgressIds(c) + UnprocessedIds(c, e), k);
    } else {
      var o :| IsZoneOrder(UnprocessedTargets(c, e), o) && b == Take(InProgressTargets(c) + o, k);
      UniformCount(c, e, o, k);
    }
  }

  // ----- leaving out instances -----

  lemma WithoutSnoc(init: seq<Instance>, last: Instance, gone: set<InstanceId>)
    ensures Without(init + [last], gone) ==
            if last.id in gone then Without(init, gone) else Without(init, gone) + [last]
  {
    assert (init + [last])[..|init|] == init;
  }

  lemma {:induction false} WithoutConcat(a: seq<Instance>, b: seq<Instance>, gone: set<InstanceId>)
    ensures Without(a + b, gone) == Without(a, gone) + Without(b, gone)
  {
    if b == [] {
      assert a + b == a;
    } else {
      var init, last := b[..|b| - 1], b[|b| - 1];
      WithoutConcat(a, init, gone);
      WithoutSnoc(a + init, last, gone);
      assert a + b == a + init + [last];
    }
  }

  lemma WithoutIds(s: seq<Instance>, gone: set<InstanceId>)
    ensures Ids(Without(s, gone)) == Ids(s) - gone
  {
    forall x
      ensures x in Without(s, gone) <==> x in s && x.id !in gone
    {
      WithoutMember(s, gone, x);
    }
  }

  lemma IdsCard(s: seq<Instance>)
    requires DistinctIds(s)
    ensures |Ids(s)| == |s|
  {
    IdSeqElems(s);
    DistinctCard(IdSeq(s));
  }

  lemma WithoutCard(s: seq<Instance>, gone: set<InstanceId>)
    requires DistinctIds(s) && gone <= Ids(s)
    ensures |Without(s, gone)| == |s| - |gone|
  {
    WithoutDistinct(s, gone);
    IdsCard(s);
    IdsCard(Without(s, gone));
    WithoutIds(s, gone);
    assert Ids(s) == (Ids(s) - gone) + gone;
  }

  lemma {:induction false} WithoutPart(s: seq<Instance>, gone: set<InstanceId>, z: string)
    ensures ZonePart(Without(s, gone), z) == Without(ZonePart(s, z), gone)
  {
    if s != [] {
      var init, last := s[..|s| - 1], s[|s| - 1];
      WithoutPart(init, gone, z);
      ZonePartSnoc(Without(init, gone), last, z);
      WithoutSnoc(ZonePart(init, z), last, gone);
    }
  }

  lemma {:induction false} WithoutReverse(s: seq<Instance>, gone: set<InstanceId>)
    ensures Without(Reverse(s), gone) == Reverse(Without(s, gone))
  {
    if s != [] {
      var init, last := s[..|s| - 1], s[|s| - 1];
      WithoutReverse(init, gone);
      WithoutConcat([last], Reverse(init), gone);
      WithoutOne(last, gone);
      ReverseSnoc(Without(init, gone), last);
    }
  }

  lemma WithoutOne(x: Instance, gone: set<InstanceId>)
    ensures Without([x], gone) == if x.id in gone then [] else [x]
  {
    assert [x][..0] == [];
  }

  /** Leaving out the same instances from a choice and from its pool keeps it the latest choice. */
  lemma WithoutLatest(chosen: seq<Instance>, pool: seq<Instance>, gone: set<InstanceId>)
    requires Latest(chosen, pool)
    ensures Latest(Without(chosen, gone), Without(pool, gone))
  {
    forall z
      ensures ZonePart(Without(chosen, gone), z) <= Reverse(ZonePart(Without(pool, gone), z))
    {
      var c, r := ZonePart(chosen, z), Reverse(ZonePart(pool, z));
      WithoutPart(chosen, gone, z);
      WithoutPart(pool, gone, z);
      WithoutReverse(ZonePart(pool, z), gone);
      WithoutPrefix(c, r, gone);
    }
  }

  lemma WithoutPrefix(a: seq<Instance>, b: seq<Instance>, gone: set<InstanceId>)
    requires a <= b
    ensures Without(a, gone) <= Without(b, gone)
  {
    assert b == a + b[|a|..];
    WithoutConcat(a, b[|a|..], gone);
  }

  lemma {:induction false} WithoutResolved(s: Snapshot, ids: seq<InstanceId>, keep: set<InstanceId>,
                                           gone: set<InstanceId>)
    requires forall id :: id in ids ==> Member(s, id).Some? && (id in keep <==> id !in gone)
    ensures Without(Resolve(s, ids), gone) == Resolve(s, Pick(ids, keep))
  {
    if ids != [] {
      var init, last := ids[..|ids| - 1], ids[|ids| - 1];
      assert last in ids && forall id :: id in init ==> id in ids;
      WithoutResolved(s, init, keep, gone);
      assert ids == init + [last];
      PickLast(init, last, keep);
      ResolveLast(s, init, last);
      ResolveLast(s, Pick(init, keep), last);
      WithoutSnoc(Resolve(s, init), Member(s, last).value, gone);
    }
  }

  // ----- two selections, on the sequences they are cut from -----

  /** The part of a first selection that comes from behind the in-progress targets. */
  ghost function NewPicks(p: seq<Instance>, o: seq<Instance>, k: nat): seq<Instance> {
    Take(o, if |p| < k then k - |p| else 0)
  }

  lemma IdsConcat(a: seq<Instance>, b: seq<Instance>)
    ensures Ids(a + b) == Ids(a) + Ids(b)
  {
  }

  lemma SelectionSplit(p: seq<Instance>, o: seq<Instance>, k: nat)
    ensures Take(p + o, k) == Take(p, k) + NewPicks(p, o, k)
    ensures |p| <= k ==> Take(p, k) == p
  {
  }

  lemma DistinctParts(p: seq<Instance>, o: seq<Instance>)
    requires DistinctIds(p + o)
    ensures DistinctIds(p) && DistinctIds(o) && Ids(p) !! Ids(o)
  {
    var all := p + o;
    forall i, j | 0 <= i < j < |o|
      ensures o[i].id != o[j].id
    {
      assert all[|p| + i] == o[i] && all[|p| + j] == o[j];
    }
    forall i, j | 0 <= i < |p| && 0 <= j < |o|
      ensures p[i].id != o[j].id
    {
      assert all[i] == p[i] && all[|p| + j] == o[j];
    }
    forall i, j | 0 <= i < j < |p|
      ensures p[i].id != p[j].id
    {
      assert all[i] == p[i] && all[j] == p[j];
    }
  }

  /** How many new picks the second selection makes: as many as the first made and did not tag. */
  lemma SecondPicks(p: seq<Instance>, o: seq<Instance>, p': seq<Instance>, o': seq<Instance>, k: nat,
                    a: set<InstanceId>)
    requires DistinctIds(p + o) && DistinctIds(p' + o')
    requires Ids(p') == Ids(p) + a && Ids(o') == Ids(o) - a && a <= Ids(NewPicks(p, o, k))
    ensures var u := Without(NewPicks(p, o, k), a);
      && |p'| == |p| + |a| && |u| <= |o'| && NewPicks(p', o', k) == Take(o', |u|) && (|p| < k ==> |p'| <= k)
      && DistinctIds(u) && Ids(u) == Ids(NewPicks(p, o, k)) - a
  {
    var f := NewPicks(p, o, k);
    DistinctParts(p, o);
    DistinctParts(p', o');
    PrefixIds(o, |f|);
    assert f == o[..|f|];
    MovedSizes(p, o, p', o', a);
    WithoutCard(f, a);
    WithoutDistinct(f, a);
    WithoutIds(f, a);
    PicksLeft(p, o, p', o', k, |a|);
  }

  lemma PrefixIds(s: seq<Instance>, n: nat)
    requires DistinctIds(s) && n <= |s|
    ensures DistinctIds(s[..n]) && Ids(s[..n]) <= Ids(s)
  {
  }

  lemma MovedSizes(p: seq<Instance>, o: seq<Instance>, p': seq<Instance>, o': seq<Instance>, a: set<InstanceId>)
    requires DistinctIds(p) && DistinctIds(o) && DistinctIds(p') && DistinctIds(o') && Ids(p) !! Ids(o)
    requires Ids(p') == Ids(p) + a && Ids(o') == Ids(o) - a && a <= Ids(o)
    ensures |p'| == |p| + |a| && |o'| == |o| - |a|
  {
    IdsCard(p);
    IdsCard(o);
    IdsCard(p');
    IdsCard(o');
    assert |Ids(p) + a| == |Ids(p)| + |a|;
    assert Ids(o) == (Ids(o) - a) + a;
  }

  lemma PicksLeft(p: seq<Instance>, o: seq<Instance>, p': seq<Instance>, o': seq<Instance>, k: nat, moved: nat)
    requires |p'| == |p| + moved && |o'| == |o| - moved && moved <= |NewPicks(p, o, k)|
    ensures var n := |NewPicks(p, o, k)| - moved;
      n <= |o'| && NewPicks(p', o', k) == Take(o', n) && (|p| < k ==> |p'| <= k)
  {
  }

  lemma SecondSelection(p: seq<Instance>, o: seq<Instance>, p': seq<Instance>, o': seq<Instance>, k: nat,
                        a: set<InstanceId>)
    requires DistinctIds(p + o) && DistinctIds(p' + o')
    requires Ids(p') == Ids(p) + a && Ids(o') == Ids(o) - a && a <= Ids(NewPicks(p, o, k)) && (a == {} ==> p' == p)
    ensures var u := Without(NewPicks(p, o, k), a);
      |u| <= |o'| && (Ids(Take(p' + o', k)) == Ids(Take(p + o, k)) <==> Ids(Take(o', |u|)) == Ids(u))
  {
    var f := NewPicks(p, o, k);
    var u := Without(f, a);
    SecondPicks(p, o, p', o', k, a);
    SelectionSplit(p, o, k);
    SelectionSplit(p', o', k);
    IdsConcat(Take(p, k), f);
    IdsConcat(Take(p', k), Take(o', |u|));
    DistinctParts(p, o);
    assert Ids(f) <= Ids(o) && Ids(Take(o', |u|)) <= Ids(o');
    if |p| >= k {
      assert f == [] && Ids(f) == {} && a == {};
      assert Ids(u) == {} && u == [] by {
        IdsCard(u);
      }
    } else {
      UnionSplit(Ids(p), a, Ids(f), Ids(u), Ids(Take(o', |u|)));
    }
  }

  lemma UnionSplit<T>(p: set<T>, a: set<T>, f: set<T>, u: set<T>, v: set<T>)
    requires u == f - a && a <= f && p !! f && v !! p && v !! a
    ensures p + a + v == p + f <==> v == u
  {
    if p + a + v == p + f {
      forall x
        ensures x in v <==> x in u
      {
        assert x in p + a + v <==> x in p + f;
      }
    }
  }

  /** Instances of one pool are the same by ID exactly when they are the same altogether. */
  lemma SameByIds(pool: seq<Instance>, s: seq<Instance>, t: seq<Instance>)
    requires DistinctIds(pool) && DistinctIds(s) && DistinctIds(t)
    requires forall i :: i in s || i in t ==> i in pool
    ensures Ids(s) == Ids(t) <==> multiset(s) == multiset(t)
  {
    if multiset(s) == multiset(t) {
      PermutedIds(s, t);
    }
    if Ids(s) == Ids(t) {
      forall i
        ensures multiset(s)[i] == multiset(t)[i]
      {
        InByIds(pool, s, t, i);
        InByIds(pool, t, s, i);
        DistinctMultiset(s, i);
        DistinctMultiset(t, i);
      }
    }
  }

  lemma InByIds(pool: seq<Instance>, s: seq<Instance>, t: seq<Instance>, i: Instance)
    requires DistinctIds(pool) && Ids(s) == Ids(t) && forall j :: j in s || j in t ==> j in pool
    ensures i in s ==> i in t
  {
    if i in s {
      assert i.id in Ids(t);
      var j :| j in t && j.id == i.id;
      var m, n :| 0 <= m < |pool| && 0 <= n < |pool| && pool[m] == i && pool[n] == j;
      assert m == n;
    }
  }

  lemma {:induction false} DistinctMultiset(s: seq<Instance>, i: Instance)
    requires DistinctIds(s)
    ensures multiset(s)[i] == if i in s then 1 else 0
  {
    if s != [] {
      var init, last := s[..|s| - 1], s[|s| - 1];
      DistinctMultiset(init, i);
      assert s == init + [last];
      forall k | 0 <= k < |init|
        ensures init[k] != last
      {
        assert s[k] == init[k] && s[|s| - 1] == last;
      }
    }
  }

  // ----- two selections from a cloud -----

  /** The members of a batch that the tags do not hold. */
  ghost function Unheld(c: Cloud, b: seq<Instance>): seq<Instance> {
    Without(b, set id | id in Ids(b) && Held(c, id))
  }

  /** The two pools before and after the tagging of `x`. */
  lemma TaggedPools(c: Cloud, x: set<InstanceId>, e: set<InstanceId>)
    requires WellFormed(c) && x <= OwnedIds(c) + FreshIds(c, e)
    ensures var c', a := Retag(c, x), HeldBy(c, x) * FreshIds(c, e);
      && WellFormed(c')
      && OwnedIds(c') == OwnedIds(c) + a
      && UnprocessedTargets(c', e) == Without(UnprocessedTargets(c, e), a)
      && (a == {} ==> InProgressTargets(c') == InProgressTargets(c))
  {
    TaggedIds(c, x, e);
    PoolMoved(c, Retag(c, x), e, HeldBy(c, x) * FreshIds(c, e));
  }

  lemma PoolMoved(c: Cloud, c': Cloud, e: set<InstanceId>, a: set<InstanceId>)
    requires WellFormed(c) && WellFormed(c') && c'.snap == c.snap && c'.listing == c.listing
    requires OwnedIds(c') == OwnedIds(c) + a && FreshIds(c', e) == FreshIds(c, e) - a
    ensures UnprocessedTargets(c', e) == Without(UnprocessedTargets(c, e), a)
    ensures a == {} ==> InProgressTargets(c') == InProgressTargets(c)
  {
    var l, q := c.listing, FreshIds(c, e);
    assert UnprocessedTargets(c, e) == Resolve(c.snap, Pick(l, q)) by {
      PoolsAre(c, e);
    }
    assert UnprocessedTargets(c', e) == Resolve(c.snap, Pick(l, q - a)) by {
      PoolsAre(c', e);
    }
    WithoutPicked(c.snap, l, q, a);
    if a == {} {
      PoolsAre(c, e);
      PoolsAre(c', e);
      assert OwnedIds(c) + a == OwnedIds(c);
    }
  }

  lemma TaggedIds(c: Cloud, x: set<InstanceId>, e: set<InstanceId>)
    requires WellFormed(c) && x <= OwnedIds(c) + FreshIds(c, e)
    ensures var c', a := Retag(c, x), HeldBy(c, x) * FreshIds(c, e);
      WellFormed(c') && OwnedIds(c') == OwnedIds(c) + a && FreshIds(c', e) == FreshIds(c, e) - a
  {
    RetagPools(c, x);
  }

  lemma WithoutPicked(s: Snapshot, l: seq<InstanceId>, q: set<InstanceId>, a: set<InstanceId>)
    requires forall id :: id in q ==> Member(s, id).Some?
    ensures Without(Resolve(s, Pick(l, q)), a) == Resolve(s, Pick(l, q - a))
  {
    PickTwice(l, q, q - a);
    assert q * (q - a) == q - a;
    WithoutResolved(s, Pick(l, q), q - a, a);
  }

  lemma UniformIdsOf(c: Cloud, e: set<InstanceId>, o: seq<Instance>)
    requires WellFormed(c) && IsZoneOrder(UnprocessedTargets(c, e), o)
    ensures Ids(InProgressTargets(c)) == OwnedIds(c) && Ids(o) == FreshIds(c, e)
    ensures DistinctIds(InProgressTargets(c) + o)
  {
    var p := InProgressTargets(c);
    UniformIds(c, e, o);
    IdSeqElems(p);
    IdSeqElems(o);
    assert IdSeq(p + o) == IdSeq(p) + IdSeq(o);
    DistinctByIdSeq(p + o);
  }

  lemma DistinctByIdSeq(s: seq<Instance>)
    requires Distinct(IdSeq(s))
    ensures DistinctIds(s)
  {
    forall i, j | 0 <= i < j < |s|
      ensures s[i].id != s[j].id
    {
      assert IdSeq(s)[i] != IdSeq(s)[j];
    }
  }

  lemma HeldAfter(c: Cloud, e: set<InstanceId>, x: set<InstanceId>, id: InstanceId)
    requires WellFormed(c) && x + {id} <= OwnedIds(c) + FreshIds(c, e)
    ensures Held(Retag(c, x), id) <==> id in OwnedIds(c) || id in HeldBy(c, x) * FreshIds(c, e)
  {
    RetagPools(c, x);
    assert id in OwnedIds(Retag(c, x)) <==> Held(Retag(c, x), id);
  }

  /** What the tags do not hold of a batch are its new picks that were not tagged. */
  lemma UnheldPicks(c: Cloud, e: set<InstanceId>, o: seq<Instance>, k: nat, x: set<InstanceId>)
    requires WellFormed(c) && IsZoneOrder(UnprocessedTargets(c, e), o) && x <= Ids(Take(InProgressTargets(c) + o, k))
    ensures Unheld(Retag(c, x), Take(InProgressTargets(c) + o, k)) ==
            Without(NewPicks(InProgressTargets(c), o, k), HeldBy(c, x) * FreshIds(c, e))
  {
    var p := InProgressTargets(c);
    var f, b, c' := NewPicks(p, o, k), Take(p + o, k), Retag(c, x);
    var held, a := (set id | id in Ids(b) && Held(c', id)), HeldBy(c, x) * FreshIds(c, e);
    UniformIdsOf(c, e, o);
    SelectionSplit(p, o, k);
    IdsConcat(Take(p, k), f);
    assert Ids(Take(p, k)) <= Ids(p) && Ids(f) <= Ids(o);
    forall id | id in Ids(b)
      ensures id in held <==> id in OwnedIds(c) || id in a
    {
      HeldAfter(c, e, x, id);
    }
    WithoutConcat(Take(p, k), f, held);
    WithoutAll(Take(p, k), held);
    WithoutSame(f, held, a);
  }

  lemma {:induction false} WithoutAll(s: seq<Instance>, gone: set<InstanceId>)
    requires Ids(s) <= gone
    ensures Without(s, gone) == []
  {
    if s != [] {
      assert s[|s| - 1].id in Ids(s) && Ids(s[..|s| - 1]) <= Ids(s);
      WithoutAll(s[..|s| - 1], gone);
    }
  }

  lemma {:induction false} WithoutSame(s: seq<Instance>, a: set<InstanceId>, b: set<InstanceId>)
    requires forall id :: id in Ids(s) ==> (id in a <==> id in b)
    ensures Without(s, a) == Without(s, b)
  {
    if s != [] {
      assert s[|s| - 1].id in Ids(s) && Ids(s[..|s| - 1]) <= Ids(s);
      WithoutSame(s[..|s| - 1], a, b);
    }
  }

  /** One order of the second pool: it selects the batch again exactly when it starts with what is not held. */
  lemma AgainByOrder(c: Cloud, e: set<InstanceId>, o: seq<Instance>, k: nat, x: set<InstanceId>, o': seq<Instance>)
    requires WellFormed(c) && IsZoneOrder(UnprocessedTargets(c, e), o) && x <= Ids(Take(InProgressTargets(c) + o, k))
    requires WellFormed(Retag(c, x)) && IsZoneOrder(UnprocessedTargets(Retag(c, x), e), o')
    ensures var b, c' := Take(InProgressTargets(c) + o, k), Retag(c, x);
      var u := Unheld(c', b);
      && |u| <= |o'|
      && (Ids(Take(InProgressTargets(c') + o', k)) == Ids(b) <==> multiset(Take(o', |u|)) == multiset(u))
  {
    var p, c', a := InProgressTargets(c), Retag(c, x), HeldBy(c, x) * FreshIds(c, e);
    var p', f := InProgressTargets(c'), NewPicks(p, o, k);
    BatchIdsWithin(c, e, o, k);
    TaggedPools(c, x, e);
    UniformIdsOf(c, e, o);
    UniformIdsOf(c', e, o');
    UnheldPicks(c, e, o, k, x);
    NewHeld(c, e, o, k, x);
    SecondSelection(p, o, p', o', k, a);
    UnheldInPool(c, e, o, k, a);
    DistinctParts(p', o');
    PrefixOfOrder(UnprocessedTargets(c', e), o', |Without(f, a)|);
    SameByIds(UnprocessedTargets(c', e), Take(o', |Without(f, a)|), Without(f, a));
  }

  lemma BatchIdsWithin(c: Cloud, e: set<InstanceId>, o: seq<Instance>, k: nat)
    requires WellFormed(c) && IsZoneOrder(UnprocessedTargets(c, e), o)
    ensures Ids(Take(InProgressTargets(c) + o, k)) <= OwnedIds(c) + FreshIds(c, e)
  {
    UniformIdsOf(c, e, o);
    IdsConcat(InProgressTargets(c), o);
  }

  /** Whatever was tagged and is new to the in-progress pool was a new pick. */
  lemma NewHeld(c: Cloud, e: set<InstanceId>, o: seq<Instance>, k: nat, x: set<InstanceId>)
    requires WellFormed(c) && IsZoneOrder(UnprocessedTargets(c, e), o) && x <= Ids(Take(InProgressTargets(c) + o, k))
    ensures HeldBy(c, x) * FreshIds(c, e) <= Ids(NewPicks(InProgressTargets(c), o, k))
    ensures FreshIds(Retag(c, x), e) == FreshIds(c, e) - HeldBy(c, x) * FreshIds(c, e)
  {
    var p := InProgressTargets(c);
    BatchIdsWithin(c, e, o, k);
    RetagPools(c, x);
    UniformIdsOf(c, e, o);
    SelectionSplit(p, o, k);
    IdsConcat(Take(p, k), NewPicks(p, o, k));
    assert Ids(Take(p, k)) <= Ids(p);
    assert OwnedIds(c) !! FreshIds(c, e);
  }

  lemma PoolDistinct(c: Cloud, e: set<InstanceId>)
    requires WellFormed(c)
    ensures DistinctIds(UnprocessedTargets(c, e))
  {
    PoolsDistinctIfListed(c, e);
    DistinctParts(InProgressTargets(c), UnprocessedTargets(c, e));
  }

  lemma PrefixOfOrder(pool: seq<Instance>, o: seq<Instance>, n: nat)
    requires IsZoneOrder(pool, o) && n <= |o| && DistinctIds(o)
    ensures DistinctIds(Take(o, n)) && forall i :: i in Take(o, n) ==> i in pool
  {
    OrderMembers(pool, o);
    PrefixIds(o, n);
    assert Take(o, n) == o[..n];
  }

  lemma UnheldInPool(c: Cloud, e: set<InstanceId>, o: seq<Instance>, k: nat, a: set<InstanceId>)
    requires WellFormed(c) && IsZoneOrder(UnprocessedTargets(c, e), o)
    ensures var pool, u := Without(UnprocessedTargets(c, e), a), Without(NewPicks(InProgressTargets(c), o, k), a);
      && DistinctIds(pool) && DistinctIds(u) && Latest(u, pool)
      && forall i :: i in u ==> i in pool
  {
    var q, f := UnprocessedTargets(c, e), NewPicks(InProgressTargets(c), o, k);
    UniformIdsOf(c, e, o);
    DistinctParts(InProgressTargets(c), o);
    OrderMembers(q, o);
    PrefixIds(o, |f|);
    assert f == o[..|f|];
    PrefixIsLatest(q, o, |f|);
    WithoutLatest(f, q, a);
    WithoutDistinct(f, a);
    PoolDistinct(c, e);
    WithoutDistinct(q, a);
    forall i | i in Without(f, a)
      ensures i in Without(q, a)
    {
      WithoutMember(f, a, i);
      WithoutMember(q, a, i);
    }
  }

  // ----- the exact conditions -----

  /** The tagging left the exclusions of the next selection as they were. */
  lemma SameExclusions(st: Accepted, c: Cloud, b: seq<Instance>, x: set<InstanceId>)
    requires WellFormed(c) && IsBatch(st, c, b) && x <= Ids(b) && (!FallsBack(c) || x == {})
    ensures WellFormed(Retag(c, x)) && Exclusions(Retag(c, x)) == Exclusions(c)
  {
    if x == {} {
      UntouchedPools(c);
    } else {
      ExclusionsAre(c);
      BatchWithin(st, c, b);
      RetagExclusions(c, x);
    }
  }

  /**
   * Uniform strategy: whatever order the zones come up in, the next selection returns the same set,
   * exactly when the picks that the tags do not hold are level among the unprocessed targets that are
   * left: for some r, every zone has r of them or all it has left. This covers a batch held throughout
   * (r = 0), a batch that takes the whole pool, and a pool in one zone.
   */
  lemma UniformStableIff(st: Accepted, c: Cloud, b: seq<Instance>, x: set<InstanceId>)
    requires WellFormed(c) && KindOf(Defaulted(st).kind) == Uniform && (!FallsBack(c) || x == {})
    requires IsBatch(st, c, b) && x <= Ids(b)
    ensures (forall b' :: IsBatch(st, Retag(c, x), b') ==> Ids(b') == Ids(b)) <==>
            Levelled(Unheld(Retag(c, x), b), UnprocessedTargets(Retag(c, x), Exclusions(c)))
  {
    var k, e, c' := BatchLimit(st, c.snap.group.desired), Exclusions(c), Retag(c, x);
    SameExclusions(st, c, b, x);
    var p', pool, u := InProgressTargets(c'), UnprocessedTargets(c', e), Unheld(c', b);
    var o :| IsZoneOrder(UnprocessedTargets(c, e), o) && b == Take(InProgressTargets(c) + o, k);
    forall o' | IsZoneOrder(pool, o')
      ensures |u| <= |o'| && (Ids(Take(p' + o', k)) == Ids(b) <==> multiset(Take(o', |u|)) == multiset(u))
      ensures IsBatch(st, c', Take(p' + o', k))
    {
      AgainByOrder(c, e, o, k, x, o');
    }
    UnheldIsLatest(c, e, o, k, x);
    ForcedIffLevelled(pool, u);
  }

  lemma UnheldIsLatest(c: Cloud, e: set<InstanceId>, o: seq<Instance>, k: nat, x: set<InstanceId>)
    requires WellFormed(c) && IsZoneOrder(UnprocessedTargets(c, e), o) && x <= Ids(Take(InProgressTargets(c) + o, k))
    requires WellFormed(Retag(c, x))
    ensures var u, pool := Unheld(Retag(c, x), Take(InProgressTargets(c) + o, k)), UnprocessedTargets(Retag(c, x), e);
      Latest(u, pool) && |u| <= |pool|
  {
    var a := HeldBy(c, x) * FreshIds(c, e);
    BatchIdsWithin(c, e, o, k);
    TaggedPools(c, x, e);
    UnheldPicks(c, e, o, k, x);
    UnheldInPool(c, e, o, k, a);
    var o' := SomeOrder(UnprocessedTargets(Retag(c, x), e));
    AgainByOrder(c, e, o, k, x, o');
    ZoneOrderIsPermutation(UnprocessedTargets(Retag(c, x), e), o');
  }

  /** After the fallback, a recognised strategy next selects exactly what was tagged of the fallback's choice. */
  lemma FallbackStable(st: Accepted, c: Cloud, b: seq<Instance>, x: set<InstanceId>, b': seq<Instance>)
    requires WellFormed(c) && FallsBack(c) && KindOf(Defaulted(st).kind) != Unrecognised
    requires IsBatch(st, c, b) && x <= Ids(b) && IsBatch(st, Retag(c, x), b')
    requires x != {}
    ensures Ids(b') == x
  {
    ExclusionsAre(c);
    BatchWithin(st, c, b);
    BatchCount(st, c, b);
    FallbackPools(c, x);
    BatchWithin(st, Retag(c, x), b');
    BatchCount(st, Retag(c, x), b');
    SubsetCard(x, Ids(b));
    SubsetOfSameSize(Ids(b'), x);
  }

  /**
   * When the next selection is sure to return the batch again: always under the random strategy, under
   * the uniform one exactly when what is not held is level, and after a fallback to drain-failed
   * instances, if something was tagged, exactly when all of the batch was.
   */
  lemma StableIff(st: Accepted, c: Cloud, b: seq<Instance>, x: set<InstanceId>)
    requires WellFormed(c) && IsBatch(st, c, b) && x <= Ids(b)
    ensures var c', kind := Retag(c, x), KindOf(Defaulted(st).kind);
      (forall b' :: IsBatch(st, c', b') ==> Ids(b') == Ids(b)) <==>
        || kind == Unrecognised
        || (if FallsBack(c) && x != {} then x == Ids(b)
            else kind == Uniform ==> Levelled(Unheld(c', b), UnprocessedTargets(c', Exclusions(c))))
  {
    var c', kind := Retag(c, x), KindOf(Defaulted(st).kind);
    if kind != Unrecognised && FallsBack(c) && x != {} {
      forall b' | IsBatch(st, c', b')
        ensures Ids(b') == x
      {
        FallbackStable(st, c, b, x, b');
      }
      var some := SomeBatch(st, c');
    } else if kind == Uniform {
      UniformStableIff(st, c, b, x);
    } else if kind == Random {
      forall b' | IsBatch(st, c', b')
        ensures Ids(b') == Ids(b)
      {
        if FallsBack(c) {
          UntouchedRandom(st, c, b, b');
        } else {
          RandomStable(st, c, b, x, b');
        }
      }
    }
  }

  lemma SomeBatch(st: Accepted, c: Cloud) returns (b: seq<Instance>)
    ensures IsBatch(st, c, b)
  {
    var k, p, q := BatchLimit(st, c.snap.group.desired), InProgressTargets(c), UnprocessedTargets(c, Exclusions(c));
    match KindOf(Defaulted(st).kind)
    case Random => b := Take(p + q, k);
    case Uniform =>
      var o := SomeOrder(q);
      b := Take(p + o, k);
    case Unrecognised => b := [];
  }

  /**
   * What keeps the next selection inside the batch: under the uniform strategy, unless only
   * drain-failed instances were left and some were tagged, that what is not held is level.
   */
  ghost predicate WillStay(st: Accepted, c: Cloud, b: seq<Instance>, x: set<InstanceId>) {
    KindOf(Defaulted(st).kind) == Uniform && !(FallsBack(c) && x != {}) ==>
      Levelled(Unheld(Retag(c, x), b), UnprocessedTargets(Retag(c, x), Exclusions(c)))
  }

  /** A batch that is held throughout stays. */
  lemma HeldStays(st: Accepted, c: Cloud, b: seq<Instance>, x: set<InstanceId>)
    requires forall id :: id in Ids(b) ==> Held(Retag(c, x), id)
    ensures WillStay(st, c, b, x)
  {
    WithoutAll(b, set id | id in Ids(b) && Held(Retag(c, x), id));
    assert LevelAt([], UnprocessedTargets(Retag(c, x), Exclusions(c)), 0);
  }

  /**
   * Re-selection stays inside the batch under that condition, and equals it unless only drain-failed
   * instances were left.
   */
  lemma SelectionStable(st: Accepted, c: Cloud, b: seq<Instance>, x: set<InstanceId>, b': seq<Instance>)
    requires WellFormed(c) && IsBatch(st, c, b) && x <= Ids(b) && IsBatch(st, Retag(c, x), b')
    requires WillStay(st, c, b, x)
    ensures Ids(b') <= Ids(b)
    ensures !FallsBack(c) ==> Ids(b') == Ids(b)
  {
    if FallsBack(c) && x != {} && KindOf(Defaulted(st).kind) != Unrecognised {
      FallbackStable(st, c, b, x, b');
    } else {
      StableIff(st, c, b, x);
    }
  }

  // ----- tagging once more what is tagged already -----

  /** Tagging what is held already, or what has no node, changes no batch. */
  lemma SameBatches(st: Accepted, c: Cloud, b: seq<Instance>, x: set<InstanceId>, b': seq<Instance>)
    requires WellFormed(c) && IsBatch(st, c, b) && x <= Ids(b) && (!FallsBack(c) || x == {})
    requires forall id :: id in x && HasNode(c.snap, id) ==> Held(c, id)
    ensures IsBatch(st, Retag(c, x), b') <==> IsBatch(st, c, b')
  {
    var e := Exclusions(c);
    BatchWithin(st, c, b);
    SameExclusions(st, c, b, x);
    TaggedIds(c, x, e);
    assert HeldBy(c, x) * FreshIds(c, e) == {};
    PoolMoved(c, Retag(c, x), e, {});
    WithoutNone(UnprocessedTargets(c, e));
  }

  lemma {:induction false} WithoutNone(s: seq<Instance>)
    ensures Without(s, {}) == s
  {
    if s != [] {
      WithoutNone(s[..|s| - 1]);
    }
  }
}
