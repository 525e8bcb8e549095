/** What tagging the batch does to the two pools, and selecting again under the random strategy. */
module Stability {
  import opened Common
  import opened BatchSize
  import opened Fleet
  import opened ZoneOrder
  import opened Selection
  import opened Batch

  /** The cloud after a selection that cleaned up and then tagged some of the batch. */
  function Retag(c: Cloud, ids: set<InstanceId>): Cloud {
    c.(tags := TagInProgress(CleanTags(c), ids))
  }

  ghost function HeldBy(c: Cloud, ids: set<InstanceId>): set<InstanceId> {
    set id | id in ids && HasNode(c.snap, id)
  }

  lemma RetagPools(c: Cloud, ids: set<InstanceId>)
    requires WellFormed(c) && forall id :: id in ids ==> id in c.listing && Candidate(c.snap, id)
    ensures WellFormed(Retag(c, ids))
    ensures OwnedIds(Retag(c, ids)) == OwnedIds(c) + HeldBy(c, ids)
    ensures forall e :: FreshIds(Retag(c, ids), e) == FreshIds(c, e) - HeldBy(c, ids)
    ensures FailedDrains(Retag(c, ids)) == FailedDrains(c) - ids
  {
    var c' := Retag(c, ids);
    forall id | id in c.listing && Candidate(c.snap, id)
      ensures Held(c', id) <==> Held(c, id) || id in HeldBy(c, ids)
    {
    }
    assert OwnedIds(c') == OwnedIds(c) + HeldBy(c, ids);
    forall e
      ensures FreshIds(c', e) == FreshIds(c, e) - HeldBy(c, ids)
    {
    }
    forall id | id in c.listing
      ensures id in FailedDrains(c') <==> id in FailedDrains(c) - ids
    {
    }
  }

  // ----- facts about a prefix of two picks -----

  lemma {:induction false} PickAll<T>(s: seq<T>, keep: set<T>)
    requires forall x :: x in s ==> x in keep
    ensures Pick(s, keep) == s
  {
    if s != [] {
      PickAll(s[1..], keep);
    }
  }

  lemma DistinctBack<T>(s: seq<T>, m: nat)
    requires Distinct(s) && m <= |s|
    ensures Distinct(s[..m]) && forall x :: x in s[m..] ==> x !in s[..m]
  {
  }

  /** Removing elements of a prefix leaves the rest of the sequence behind what remains of the prefix. */
  lemma RemoveFromFront<T>(front: seq<T>, back: seq<T>, q: set<T>, a: set<T>)
    requires forall x :: x in back ==> x in q && x !in a
    ensures Pick(front + back, q - a) == Pick(front, q - a) + back
  {
    PickConcat(front, back, q - a);
    PickAll(back, q - a);
  }

  lemma KeptSize<T>(front: seq<T>, q: set<T>, a: set<T>)
    requires Distinct(front) && Elems(front) <= q && a <= Elems(front)
    ensures |Pick(front, q - a)| == |front| - |a| && Elems(Pick(front, q - a)) == Elems(front) - a
  {
    PickLength(front, q - a);
    assert Elems(front) * (q - a) == Elems(front) - a;
    DistinctCard(front);
  }

  lemma TakeAcross<T>(x: seq<T>, y: seq<T>, z: seq<T>, k: nat)
    requires |x| + |y| == k || (|x| + |y| <= k && z == [])
    ensures Take(x + (y + z), k) == x + y
  {
    assert x + (y + z) == (x + y) + z;
  }

  lemma PickMore<T>(l: seq<T>, p: set<T>, a: set<T>)
    requires Distinct(l) && p !! a && a <= Elems(l)
    ensures |Pick(l, p + a)| == |Pick(l, p)| + |a|
    ensures Elems(Pick(l, p + a)) == Elems(Pick(l, p)) + a
  {
    PickLength(l, p);
    PickLength(l, p + a);
    assert Elems(l) * (p + a) == Elems(l) * p + a;
  }

  lemma TakeSplit<T>(x: seq<T>, y: seq<T>, k: nat)
    ensures |x| >= k ==> Take(x + y, k) == x[..k]
    ensures |x| < k <= |x| + |y| ==> Take(x + y, k) == x + y[..k - |x|]
    ensures |x| + |y| <= k ==> Take(x + y, k) == x + y
  {
  }

  lemma ElemsConcat<T>(x: seq<T>, y: seq<T>)
    ensures Elems(x + y) == Elems(x) + Elems(y)
  {
  }

  /** Moving part of a prefix from the second pick to the first does not change the prefix as a set. */
  lemma StableTake(l: seq<InstanceId>, p: set<InstanceId>, q: set<InstanceId>, k: nat, a: set<InstanceId>)
    requires Distinct(l) && p !! q && a <= q && a <= Elems(Take(Pick(l, p) + Pick(l, q), k))
    ensures Elems(Take(Pick(l, p + a) + Pick(l, q - a), k)) == Elems(Take(Pick(l, p) + Pick(l, q), k))
  {
    var ps, qs := Pick(l, p), Pick(l, q);
    TakeSplit(ps, qs, k);
    if |ps| >= k {
      assert a == {} by {
        forall x | x in ps[..k] ensures x !in a { assert x in ps; }
      }
      assert p + a == p && q - a == q;
    } else {
      var m := if k - |ps| < |qs| then k - |ps| else |qs|;
      var front := qs[..m];
      assert Take(ps + qs, k) == ps + front;
      ElemsConcat(ps, front);
      assert Elems(ps) !! q;
      StableSuffix(l, p, q, k, a, front, qs[m..]);
    }
  }

  lemma RemoveFromPick<T>(l: seq<T>, q: set<T>, a: set<T>, front: seq<T>, back: seq<T>)
    requires Distinct(l) && Pick(l, q) == front + back && a <= Elems(front)
    ensures var kept := Pick(front, q - a);
            && Pick(l, q - a) == kept + back
            && |kept| == |front| - |a| && Elems(kept) == Elems(front) - a
  {
    var qs := front + back;
    PickDistinct(l, q);
    DistinctBack(qs, |front|);
    assert qs[..|front|] == front && qs[|front|..] == back;
    assert Elems(front) <= q by {
      forall x | x in front ensures x in q { assert x in qs; }
    }
    KeptSize(front, q, a);
    forall x | x in back
      ensures x in q && x !in a
    {
      assert x in qs;
    }
    RemoveFromFront(front, back, q, a);
    PickTwice(l, q, q - a);
    assert q * (q - a) == q - a;
  }

  lemma FrontOfPick<T>(l: seq<T>, q: set<T>, front: seq<T>, back: seq<T>)
    requires Pick(l, q) == front + back
    ensures Elems(front) <= q && Elems(front) <= Elems(l)
  {
    forall x | x in front
      ensures x in q && x in l
    {
      assert x in Pick(l, q);
    }
  }

  lemma MoveBetween<T>(x: set<T>, y: set<T>, a: set<T>)
    requires a <= y
    ensures x + a + (y - a) == x + y
  {
  }

  lemma StableSuffix(l: seq<InstanceId>, p: set<InstanceId>, q: set<InstanceId>, k: nat, a: set<InstanceId>,
                     front: seq<InstanceId>, back: seq<InstanceId>)
    requires Distinct(l) && p !! q && Pick(l, q) == front + back && a <= Elems(front)
    requires |Pick(l, p)| + |front| == k || (|Pick(l, p)| + |front| <= k && back == [])
    ensures Elems(Take(Pick(l, p + a) + Pick(l, q - a), k)) == Elems(Pick(l, p)) + Elems(front)
  {
    var kept := Pick(front, q - a);
    RemoveFromPick(l, q, a, front, back);
    FrontOfPick(l, q, front, back);
    PickMore(l, p, a);
    TakeAcross(Pick(l, p + a), kept, back, k);
    ElemsConcat(Pick(l, p + a), kept);
    MoveBetween(Elems(Pick(l, p)), Elems(front), a);
  }

  // ----- selecting twice -----

  /** Only drain-failed instances were left to select. */
  ghost predicate FallsBack(c: Cloud) {
    OwnedIds(c) == {} && FreshIds(c, FailedDrains(c)) == {} && FailedDrains(c) != {}
  }

  lemma PickEmpty<T>(l: seq<T>, keep: set<T>)
    requires forall x :: x in keep ==> x in l
    ensures Pick(l, keep) == [] <==> keep == {}
  {
    if Pick(l, keep) != [] {
      assert Pick(l, keep)[0] in keep;
    }
    if x :| x in keep {
      assert x in Pick(l, keep);
    }
  }

  lemma ExclusionsAre(c: Cloud)
    requires WellFormed(c)
    ensures Exclusions(c) == if FallsBack(c) then {} else FailedDrains(c)
  {
    PoolsAre(c, FailedDrains(c));
    PickEmpty(c.listing, OwnedIds(c));
    PickEmpty(c.listing, FreshIds(c, FailedDrains(c)));
  }

  lemma ResolvedIds(s: Snapshot, ids: seq<InstanceId>)
    requires forall id :: id in ids ==> Member(s, id).Some?
    ensures Ids(Resolve(s, ids)) == Elems(ids)
  {
    var r := Resolve(s, ids);
    forall id | id in ids
      ensures id in Ids(r)
    {
      var k :| 0 <= k < |ids| && ids[k] == id;
      assert r[k] in r;
    }
  }

  lemma ResolveConcat(s: Snapshot, p: seq<InstanceId>, q: seq<InstanceId>)
    requires forall id :: id in p + q ==> Member(s, id).Some?
    ensures (forall id :: id in p ==> id in p + q) && (forall id :: id in q ==> id in p + q)
    ensures Resolve(s, p) + Resolve(s, q) == Resolve(s, p + q)
  {
  }

  lemma ResolvePrefix(s: Snapshot, ids: seq<InstanceId>, k: nat)
    requires forall id :: id in ids ==> Member(s, id).Some?
    ensures Take(Resolve(s, ids), k) == Resolve(s, Take(ids, k))
  {
  }

  lemma ResolveTake(s: Snapshot, p: seq<InstanceId>, q: seq<InstanceId>, k: nat)
    requires forall id :: id in p || id in q ==> Member(s, id).Some?
    ensures Ids(Take(Resolve(s, p) + Resolve(s, q), k)) == Elems(Take(p + q, k))
  {
    ResolveConcat(s, p, q);
    ResolvePrefix(s, p + q, k);
    ResolvedIds(s, Take(p + q, k));
  }

  lemma RandomIds(c: Cloud, e: set<InstanceId>, k: nat)
    requires WellFormed(c)
    ensures Ids(Take(InProgressTargets(c) + UnprocessedTargets(c, e), k)) ==
            Elems(Take(InProgressIds(c) + UnprocessedIds(c, e), k))
  {
    PoolsAre(c, e);
    ResolveTake(c.snap, InProgressIds(c), UnprocessedIds(c, e), k);
  }

  /** Whatever the strategy, a batch comes from the two pools. */
  lemma BatchWithin(st: Accepted, c: Cloud, b: seq<Instance>)
    requires WellFormed(c) && IsBatch(st, c, b)
    ensures Ids(b) <= OwnedIds(c) + FreshIds(c, Exclusions(c))
    ensures forall i :: i in b ==> i in c.snap.group.instances && i.id in c.listing && Candidate(c.snap, i.id)
  {
    var e := Exclusions(c);
    SelectionExact(c, e);
    var p, q := InProgressTargets(c), UnprocessedTargets(c, e);
    ChoiceWithin(KindOf(Defaulted(st).kind), BatchLimit(st, c.snap.group.desired), p, q, b);
    forall i | i in p || i in q
      ensures Member(c.snap, i.id) == Some(i)
    {
      SelectsTheMember(c.snap.group.instances, i);
    }
  }

  /** Tagging part of the batch leaves the exclusions as they were, unless only drain-failed instances were left. */
  lemma RetagExclusions(c: Cloud, x: set<InstanceId>)
    requires WellFormed(c) && !FallsBack(c) && x <= OwnedIds(c) + FreshIds(c, FailedDrains(c))
    ensures WellFormed(Retag(c, x)) && Exclusions(Retag(c, x)) == FailedDrains(c)
  {
    RetagPools(c, x);
    var c' := Retag(c, x);
    var failed := FailedDrains(c);
    assert OwnedIds(c) !! failed;
    assert FailedDrains(c') == failed;
    ExclusionsAre(c');
    assert OwnedIds(c') + FreshIds(c', failed) == OwnedIds(c) + FreshIds(c, failed);
  }

  /** The IDs of a batch of the random strategy, from the pools of IDs. */
  lemma RandomBatchIds(st: Accepted, c: Cloud, b: seq<Instance>, p: set<InstanceId>, q: set<InstanceId>)
    requires WellFormed(c) && KindOf(Defaulted(st).kind) == Random && IsBatch(st, c, b)
    requires p == OwnedIds(c) && q == FreshIds(c, Exclusions(c))
    ensures Ids(b) == Elems(Take(Pick(c.listing, p) + Pick(c.listing, q), BatchLimit(st, c.snap.group.desired)))
  {
    RandomIds(c, Exclusions(c), BatchLimit(st, c.snap.group.desired));
  }

  lemma StableTakeAny(l: seq<InstanceId>, p: set<InstanceId>, q: set<InstanceId>, k: nat, a: set<InstanceId>)
    requires Distinct(l) && p !! q && a <= p + q && a <= Elems(Take(Pick(l, p) + Pick(l, q), k))
    ensures Elems(Take(Pick(l, p + a) + Pick(l, q - a), k)) == Elems(Take(Pick(l, p) + Pick(l, q), k))
  {
    assert p + a == p + a * q && q - a == q - a * q;
    StableTake(l, p, q, k, a * q);
  }

  lemma RandomStable(st: Accepted, c: Cloud, b: seq<Instance>, x: set<InstanceId>, b': seq<Instance>)
    requires WellFormed(c) && KindOf(Defaulted(st).kind) == Random && !FallsBack(c)
    requires IsBatch(st, c, b) && x <= Ids(b) && IsBatch(st, Retag(c, x), b')
    ensures Ids(b') == Ids(b)
  {
    ExclusionsAre(c);
    BatchWithin(st, c, b);
    RetagExclusions(c, x);
    RetagPools(c, x);
    var p, q, a := OwnedIds(c), FreshIds(c, FailedDrains(c)), HeldBy(c, x);
    RandomBatchIds(st, c, b, p, q);
    RandomBatchIds(st, Retag(c, x), b', p + a, q - a);
    StableTakeAny(c.listing, p, q, BatchLimit(st, c.snap.group.desired), a);
  }

  /** With a part of the fallback's choice tagged, nothing else is left to select. */
  lemma FallbackPools(c: Cloud, x: set<InstanceId>)
    requires WellFormed(c) && FallsBack(c) && x != {} && x <= FreshIds(c, {})
    ensures var c' := Retag(c, x);
      WellFormed(c') && OwnedIds(c') + FreshIds(c', Exclusions(c')) == x && OwnedIds(c') !! FreshIds(c', Exclusions(c'))
  {
    RetagPools(c, x);
    LeftToSelect(c, x);
    var c', held := Retag(c, x), HeldBy(c, x);
    ExclusionsAre(c');
    assert OwnedIds(c') == held && FreshIds(c', FailedDrains(c')) == x - held;
    assert held <= x && held + (x - held) == x;
  }

  lemma LeftToSelect(c: Cloud, x: set<InstanceId>)
    requires FreshIds(c, FailedDrains(c)) == {} && x <= FreshIds(c, {})
    ensures FreshIds(c, FailedDrains(c) - x) == x
  {
    forall id | id in FreshIds(c, {})
      ensures id in FailedDrains(c)
    {
      assert id !in FreshIds(c, FailedDrains(c));
    }
  }

  /** When nothing was tagged the pools are as before. */
  lemma UntouchedPools(c: Cloud)
    requires WellFormed(c)
    ensures var c' := Retag(c, {});
      WellFormed(c') && Exclusions(c') == Exclusions(c) && OwnedIds(c') == OwnedIds(c)
      && FreshIds(c', Exclusions(c)) == FreshIds(c, Exclusions(c))
  {
    RetagPools(c, {});
    assert HeldBy(c, {}) == {};
    ExclusionsAre(c);
    ExclusionsAre(Retag(c, {}));
  }

  // ----- the uniform strategy, on the sequences of IDs -----

  function IdSeq(b: seq<Instance>): seq<InstanceId> {
    seq(|b|, k requires 0 <= k < |b| => b[k].id)
  }

  lemma IdSeqElems(b: seq<Instance>)
    ensures Elems(IdSeq(b)) == Ids(b)
  {
    forall id | id in Ids(b)
      ensures id in IdSeq(b)
    {
      var k :| 0 <= k < |b| && b[k].id == id;
      assert IdSeq(b)[k] == id;
    }
  }

  lemma PermutedIds(q: seq<Instance>, o: seq<Instance>)
    requires multiset(q) == multiset(o)
    ensures Ids(q) == Ids(o)
  {
    forall i
      ensures i in q <==> i in o
    {
      assert i in q <==> i in multiset(q);
      assert i in o <==> i in multiset(o);
    }
  }

  /** Permuting the tail of a sequence without repeated IDs repeats none. */
  lemma PermutedDistinct(p: seq<Instance>, q: seq<Instance>, o: seq<Instance>)
    requires DistinctIds(p + q) && Ids(q) == Ids(o) && |q| == |o|
    ensures Distinct(IdSeq(p + o)) && Elems(IdSeq(p + o)) == Elems(IdSeq(p + q))
  {
    assert Distinct(IdSeq(p + q));
    DistinctCard(IdSeq(p + q));
    assert IdSeq(p + q) == IdSeq(p) + IdSeq(q) && IdSeq(p + o) == IdSeq(p) + IdSeq(o);
    IdSeqElems(q);
    IdSeqElems(o);
    ElemsConcat(IdSeq(p), IdSeq(q));
    ElemsConcat(IdSeq(p), IdSeq(o));
    FullCardDistinct(IdSeq(p + o));
  }

  lemma ResolvedIdSeq(s: Snapshot, ids: seq<InstanceId>)
    requires forall id :: id in ids ==> Member(s, id).Some?
    ensures IdSeq(Resolve(s, ids)) == ids
  {
  }

  lemma PoolIds(c: Cloud, e: set<InstanceId>)
    requires WellFormed(c)
    ensures IdSeq(InProgressTargets(c)) == InProgressIds(c) && Elems(InProgressIds(c)) == OwnedIds(c)
    ensures Ids(UnprocessedTargets(c, e)) == FreshIds(c, e)
  {
    PoolsAre(c, e);
    ResolvedIdSeq(c.snap, InProgressIds(c));
    ResolvedIds(c.snap, UnprocessedIds(c, e));
  }

  lemma UniformDistinct(c: Cloud, e: set<InstanceId>, o: seq<Instance>)
    requires WellFormed(c) && Ids(UnprocessedTargets(c, e)) == Ids(o) && |UnprocessedTargets(c, e)| == |o|
    ensures Distinct(IdSeq(InProgressTargets(c)) + IdSeq(o))
  {
    var p, q := InProgressTargets(c), UnprocessedTargets(c, e);
    PoolsDistinctIfListed(c, e);
    PermutedDistinct(p, q, o);
    assert IdSeq(p + o) == IdSeq(p) + IdSeq(o);
  }

  lemma UniformIds(c: Cloud, e: set<InstanceId>, o: seq<Instance>)
    requires WellFormed(c) && IsZoneOrder(UnprocessedTargets(c, e), o)
    ensures IdSeq(InProgressTargets(c)) == InProgressIds(c) && Elems(InProgressIds(c)) == OwnedIds(c)
    ensures Elems(IdSeq(o)) == FreshIds(c, e)
    ensures Distinct(InProgressIds(c) + IdSeq(o))
  {
    PoolIds(c, e);
    ZoneOrderIsPermutation(UnprocessedTargets(c, e), o);
    PermutedIds(UnprocessedTargets(c, e), o);
    IdSeqElems(o);
    UniformDistinct(c, e, o);
  }

  lemma TakeIds(p: seq<Instance>, o: seq<Instance>, k: nat)
    ensures Ids(Take(p + o, k)) == Elems(Take(IdSeq(p) + IdSeq(o), k))
  {
    IdSeqElems(Take(p + o, k));
    assert IdSeq(Take(p + o, k)) == Take(IdSeq(p) + IdSeq(o), k);
  }

  lemma UntouchedRandom(st: Accepted, c: Cloud, b: seq<Instance>, b': seq<Instance>)
    requires WellFormed(c) && IsBatch(st, c, b) && IsBatch(st, Retag(c, {}), b')
    requires KindOf(Defaulted(st).kind) == Random
    ensures Ids(b') == Ids(b)
  {
    var k, e := BatchLimit(st, c.snap.group.desired), Exclusions(c);
    UntouchedPools(c);
    RandomIds(c, e, k);
    RandomIds(Retag(c, {}), e, k);
  }
}
