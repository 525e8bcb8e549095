/**
 * Which prefixes of a zone order do not depend on the order in which the zones come up: exactly
 * those that end with a round, so that every zone has given the same number or all it has.
 */
module ZoneLevels {
  import opened Common
  import opened Fleet
  import opened ZoneOrder

  function Min(a: nat, b: nat): nat {
    if a < b then a else b
  }

  function Count(s: seq<Instance>, z: string): nat {
    |ZonePart(s, z)|
  }

  /** Every zone of the pool has given `r` targets, or all of them. */
  ghost predicate LevelAt(chosen: seq<Instance>, pool: seq<Instance>, r: nat) {
    forall z :: Count(chosen, z) == Min(Count(pool, z), r)
  }

  ghost predicate Levelled(chosen: seq<Instance>, pool: seq<Instance>) {
    exists r: nat :: LevelAt(chosen, pool, r)
  }

  /** Zone by zone, the targets chosen are the last ones of the pool, in the order in which a zone gives them. */
  ghost predicate Latest(chosen: seq<Instance>, pool: seq<Instance>) {
    forall z :: ZonePart(chosen, z) <= Reverse(ZonePart(pool, z))
  }

  // ----- counting by zone -----

  lemma {:induction false} PartMultiset(s: seq<Instance>, z: string, x: Instance)
    ensures multiset(ZonePart(s, z))[x] == if x.zone == z then multiset(s)[x] else 0
  {
    if s != [] {
      PartMultiset(s[..|s| - 1], z, x);
      assert s == s[..|s| - 1] + [s[|s| - 1]];
    }
  }

  lemma SameCounts(a: seq<Instance>, b: seq<Instance>, z: string)
    requires multiset(a) == multiset(b)
    ensures Count(a, z) == Count(b, z)
  {
    forall x
      ensures multiset(ZonePart(a, z))[x] == multiset(ZonePart(b, z))[x]
    {
      PartMultiset(a, z, x);
      PartMultiset(b, z, x);
    }
    assert multiset(ZonePart(a, z)) == multiset(ZonePart(b, z));
    assert |multiset(ZonePart(a, z))| == |multiset(ZonePart(b, z))|;
  }

  lemma SameParts(a: seq<Instance>, b: seq<Instance>)
    requires forall z :: ZonePart(a, z) == ZonePart(b, z)
    ensures multiset(a) == multiset(b)
  {
    forall x
      ensures multiset(a)[x] == multiset(b)[x]
    {
      PartMultiset(a, x.zone, x);
      PartMultiset(b, x.zone, x);
    }
  }

  ghost function Zones(s: seq<Instance>): multiset<string> {
    if s == [] then multiset{} else Zones(s[..|s| - 1]) + multiset{s[|s| - 1].zone}
  }

  lemma {:induction false} ZonesCount(s: seq<Instance>, z: string)
    ensures Zones(s)[z] == Count(s, z) && |Zones(s)| == |s|
  {
    if s != [] {
      ZonesCount(s[..|s| - 1], z);
    }
  }

  /** Of two sequences of one length, if one has more of some zone it has less of another. */
  lemma MoreAndLess(a: seq<Instance>, b: seq<Instance>, z: string) returns (y: string)
    requires |a| == |b| && Count(a, z) > Count(b, z)
    ensures Count(a, y) < Count(b, y)
  {
    forall v
      ensures Zones(a)[v] == Count(a, v) && Zones(b)[v] == Count(b, v) && |Zones(a)| == |a| && |Zones(b)| == |b|
    {
      ZonesCount(a, v);
      ZonesCount(b, v);
    }
    if forall v :: Zones(b)[v] <= Zones(a)[v] {
      Strictly(Zones(b), Zones(a), z);
      assert false;
    }
    y :| Zones(a)[y] < Zones(b)[y];
  }

  lemma Strictly(x: multiset<string>, y: multiset<string>, z: string)
    requires (forall v :: x[v] <= y[v]) && x[z] < y[z]
    ensures |x| < |y|
  {
    assert y == x + (y - x);
    assert (y - x)[z] > 0;
  }

  // ----- prefixes of a zone order -----

  lemma {:induction false} PartOfPrefix(s: seq<Instance>, n: nat, z: string)
    requires n <= |s|
    ensures ZonePart(s[..n], z) <= ZonePart(s, z)
  {
    if n == |s| {
      assert s[..n] == s;
    } else {
      PartOfPrefix(s[..|s| - 1], n, z);
      assert s[..|s| - 1][..n] == s[..n];
    }
  }

  lemma {:induction false} ReverseTwice<T>(s: seq<T>)
    ensures Reverse(Reverse(s)) == s
  {
    if s != [] {
      var init, last := s[..|s| - 1], s[|s| - 1];
      ReverseTwice(init);
      ReverseCons(last, Reverse(init));
    }
  }

  lemma {:induction false} ReverseCons<T>(x: T, s: seq<T>)
    ensures Reverse([x] + s) == Reverse(s) + [x]
  {
    if s == [] {
      assert [x] + s == [x];
    } else {
      ReverseCons(x, s[..|s| - 1]);
      assert ([x] + s)[..|s|] == [x] + s[..|s| - 1];
    }
  }

  lemma PrefixIsLatest(pool: seq<Instance>, o: seq<Instance>, n: nat)
    requires IsZoneOrder(pool, o) && n <= |o|
    ensures Latest(o[..n], pool)
  {
    forall z
      ensures ZonePart(o[..n], z) <= Reverse(ZonePart(pool, z))
    {
      PartOfPrefix(o, n, z);
      ReverseTwice(ZonePart(o, z));
    }
  }

  lemma LatestCount(chosen: seq<Instance>, pool: seq<Instance>, z: string)
    requires Latest(chosen, pool)
    ensures Count(chosen, z) <= Count(pool, z)
  {
    assert ZonePart(chosen, z) <= Reverse(ZonePart(pool, z));
  }

  /** Two choices of the latest targets with the same counts are the same targets. */
  lemma LatestByCount(a: seq<Instance>, b: seq<Instance>, pool: seq<Instance>)
    requires Latest(a, pool) && Latest(b, pool) && forall z :: Count(a, z) == Count(b, z)
    ensures multiset(a) == multiset(b)
  {
    forall z
      ensures ZonePart(a, z) == ZonePart(b, z)
    {
      assert ZonePart(a, z) <= Reverse(ZonePart(pool, z)) && ZonePart(b, z) <= Reverse(ZonePart(pool, z));
      assert Count(a, z) == Count(b, z);
    }
    SameParts(a, b);
  }

  /** Where a level has been reached, fairness forces every order of the pool to have the same counts. */
  lemma LevelForced(pool: seq<Instance>, o: seq<Instance>, chosen: seq<Instance>, r: nat, z: string)
    requires IsZoneOrder(pool, o) && |chosen| <= |o| && LevelAt(chosen, pool, r)
    ensures Count(o[..|chosen|], z) == Count(chosen, z)
  {
    var prefix := o[..|chosen|];
    PrefixIsLatest(pool, o, |chosen|);
    if Count(prefix, z) > Count(chosen, z) {
      var y := MoreAndLess(prefix, chosen, z);
      NoneBehind(pool, o, chosen, r, z, y);
      assert false;
    } else if Count(prefix, z) < Count(chosen, z) {
      var y := MoreAndLess(chosen, prefix, z);
      NoneBehind(pool, o, chosen, r, y, z);
      assert false;
    }
  }

  /** If some zone is beyond the level, none is behind it. */
  lemma NoneBehind(pool: seq<Instance>, o: seq<Instance>, chosen: seq<Instance>, r: nat, over: string, other: string)
    requires IsZoneOrder(pool, o) && |chosen| <= |o| && LevelAt(chosen, pool, r)
    requires Count(o[..|chosen|], over) > Count(chosen, over)
    ensures Count(o[..|chosen|], other) >= Count(chosen, other)
  {
    var prefix := o[..|chosen|];
    PrefixIsLatest(pool, o, |chosen|);
    LatestCount(prefix, pool, over);
    assert Count(chosen, over) == Min(Count(pool, over), r) && Count(chosen, other) == Min(Count(pool, other), r);
    if Count(prefix, other) < Count(pool, other) {
      FairCount(pool, o, |chosen|, over, other);
    }
  }

  // ----- a prefix that ends within a round can be changed -----

  /** The same order with the targets at `n - 1` and `n` exchanged. */
  function Swapped(o: seq<Instance>, n: nat): seq<Instance>
    requires 0 < n < |o|
  {
    o[..n - 1] + [o[n]] + [o[n - 1]] + o[n + 1..]
  }

  lemma {:induction false} PartConcat(a: seq<Instance>, b: seq<Instance>, z: string)
    ensures ZonePart(a + b, z) == ZonePart(a, z) + ZonePart(b, z)
  {
    if b == [] {
      assert a + b == a;
    } else {
      PartConcat(a, b[..|b| - 1], z);
      assert (a + b)[..|a + b| - 1] == a + b[..|b| - 1];
    }
  }

  lemma CountSnoc(s: seq<Instance>, x: Instance, z: string)
    ensures Count(s + [x], z) == Count(s, z) + if x.zone == z then 1 else 0
  {
    ZonePartSnoc(s, x, z);
  }

  /** The counts after `n - 1`, `n` and `n + 1` targets. */
  lemma CountsAround(o: seq<Instance>, n: nat, z: string)
    requires 0 < n < |o|
    ensures Count(o[..n], z) == Count(o[..n - 1], z) + if o[n - 1].zone == z then 1 else 0
    ensures Count(o[..n + 1], z) == Count(o[..n], z) + if o[n].zone == z then 1 else 0
  {
    assert o[..n] == o[..n - 1] + [o[n - 1]] && o[..n + 1] == o[..n] + [o[n]];
    CountSnoc(o[..n - 1], o[n - 1], z);
    CountSnoc(o[..n], o[n], z);
  }

  /** Fairness in terms of counts. */
  lemma FairCount(pool: seq<Instance>, o: seq<Instance>, n: nat, ahead: string, behind: string)
    requires IsZoneOrder(pool, o) && n <= |o| && Count(o[..n], behind) < Count(pool, behind)
    ensures Count(o[..n], ahead) <= Count(o[..n], behind) + 1
  {
    assert Fair(pool, o[..n]);
  }

  /** If the zone picked next had already drawn level with the one picked before, a round ended between the two. */
  lemma RoundEnded(pool: seq<Instance>, o: seq<Instance>, n: nat)
    requires IsZoneOrder(pool, o) && 0 < n < |o|
    requires var before := if o[n].zone == o[n - 1].zone then 0 else 1;
      Count(o[..n - 1], o[n].zone) >= Count(o[..n - 1], o[n - 1].zone) + before
    ensures LevelAt(o[..n], pool, Count(o[..n], o[n].zone))
  {
    var y, w := o[n].zone, o[n - 1].zone;
    forall z
      ensures Count(o[..n], z) == Min(Count(pool, z), Count(o[..n], y))
    {
      PrefixIsLatest(pool, o, n - 1);
      PrefixIsLatest(pool, o, n);
      PrefixIsLatest(pool, o, n + 1);
      CountsAround(o, n, z);
      CountsAround(o, n, w);
      CountsAround(o, n, y);
      LatestCount(o[..n], pool, z);
      LatestCount(o[..n], pool, w);
      LatestCount(o[..n + 1], pool, y);
      FairCount(pool, o, n - 1, z, w);
      FairCount(pool, o, n - 1, y, w);
      if Count(o[..n + 1], z) < Count(pool, z) {
        FairCount(pool, o, n + 1, y, z);
      }
    }
  }

  lemma SwappedFair(pool: seq<Instance>, o: seq<Instance>, n: nat)
    requires IsZoneOrder(pool, o) && 0 < n < |o| && !Levelled(o[..n], pool)
    ensures o[n].zone != o[n - 1].zone && Fair(pool, o[..n - 1] + [o[n]])
  {
    var y, w, c := o[n].zone, o[n - 1].zone, o[..n - 1] + [o[n]];
    if y == w || Count(o[..n - 1], y) > Count(o[..n - 1], w) {
      RoundEnded(pool, o, n);
      assert false;
    }
    forall ahead, behind | |ZonePart(c, behind)| < |ZonePart(pool, behind)|
      ensures |ZonePart(c, ahead)| <= |ZonePart(c, behind)| + 1
    {
      CountSnoc(o[..n - 1], o[n], ahead);
      CountSnoc(o[..n - 1], o[n], behind);
      CountsAround(o, n, ahead);
      CountsAround(o, n, behind);
      FairCount(pool, o, n - 1, ahead, behind);
      if ahead == y && behind != y && behind != w {
        FairCount(pool, o, n + 1, y, behind);
      }
    }
  }

  lemma SwappedPrefix(o: seq<Instance>, n: nat, m: nat)
    requires 0 < n < |o| && m <= |o|
    ensures m < n ==> Swapped(o, n)[..m] == o[..m]
    ensures m == n ==> Swapped(o, n)[..m] == o[..n - 1] + [o[n]]
    ensures m > n ==> Swapped(o, n)[..m] == o[..n - 1] + [o[n]] + [o[n - 1]] + o[n + 1..m]
  {
  }

  lemma SwappedParts(o: seq<Instance>, n: nat, m: nat, z: string)
    requires 0 < n < m <= |o| && o[n].zone != o[n - 1].zone
    ensures ZonePart(Swapped(o, n)[..m], z) == ZonePart(o[..m], z)
  {
    var a, x, y, b := o[..n - 1], [o[n - 1]], [o[n]], o[n + 1..m];
    SwappedPrefix(o, n, m);
    assert o[..m] == a + x + y + b;
    PartConcat(a + x + y, b, z);
    PartConcat(a + y + x, b, z);
    ZonePartSnoc(a + x, o[n], z);
    ZonePartSnoc(a, o[n - 1], z);
    ZonePartSnoc(a + y, o[n - 1], z);
    ZonePartSnoc(a, o[n], z);
  }

  lemma FairByParts(pool: seq<Instance>, a: seq<Instance>, b: seq<Instance>)
    requires Fair(pool, a) && forall z :: ZonePart(a, z) == ZonePart(b, z)
    ensures Fair(pool, b)
  {
  }

  /** A prefix that ends within a round has another order of the same pool that changes it. */
  lemma SwappedIsOrder(pool: seq<Instance>, o: seq<Instance>, n: nat)
    requires IsZoneOrder(pool, o) && 0 < n < |o| && !Levelled(o[..n], pool)
    ensures o[n].zone != o[n - 1].zone && IsZoneOrder(pool, Swapped(o, n))
  {
    var s := Swapped(o, n);
    SwappedFair(pool, o, n);
    SwappedPrefix(o, n, n);
    assert s[..|s|] == s && o[..|o|] == o && |s| == |o|;
    forall z
      ensures ZonePart(s, z) == ZonePart(o, z)
    {
      SwappedParts(o, n, |o|, z);
    }
    forall m | 0 <= m <= |s|
      ensures Fair(pool, s[..m])
    {
      assert Fair(pool, o[..m]);
      if m < n {
        SwappedPrefix(o, n, m);
      } else if m > n {
        forall z
          ensures ZonePart(o[..m], z) == ZonePart(s[..m], z)
        {
          SwappedParts(o, n, m, z);
        }
        FairByParts(pool, o[..m], s[..m]);
      }
    }
  }

  // ----- every pool has an order -----

  /** Part of an order: the latest targets of every zone, fair after every pick. */
  ghost predicate PartialOrder(pool: seq<Instance>, o: seq<Instance>) {
    Latest(o, pool) && FairThroughout(pool, o)
  }

  /** A zone that still has targets and, among those that do, has given the fewest. */
  ghost predicate LeastZone(pool: seq<Instance>, o: seq<Instance>, z: string) {
    && Count(o, z) < Count(pool, z)
    && forall y :: Count(o, y) < Count(pool, y) ==> Count(o, z) <= Count(o, y)
  }

  lemma {:induction false} FindLeast(pool: seq<Instance>, o: seq<Instance>, z: string) returns (least: string)
    requires Count(o, z) < Count(pool, z)
    ensures LeastZone(pool, o, least)
    decreases Count(o, z)
  {
    if y :| Count(o, y) < Count(pool, y) && Count(o, y) < Count(o, z) {
      least := FindLeast(pool, o, y);
    } else {
      least := z;
    }
  }

  /** The next target of a zone that still has some. */
  ghost function Next(pool: seq<Instance>, o: seq<Instance>, z: string): Instance
    requires Count(o, z) < Count(pool, z)
  {
    Reverse(ZonePart(pool, z))[Count(o, z)]
  }

  lemma {:induction false} ReverseZone(s: seq<Instance>, z: string)
    requires forall x :: x in s ==> x.zone == z
    ensures forall x :: x in Reverse(s) ==> x.zone == z
  {
    if s != [] {
      ReverseZone(s[..|s| - 1], z);
    }
  }

  lemma NextZone(pool: seq<Instance>, o: seq<Instance>, z: string)
    requires Count(o, z) < Count(pool, z)
    ensures Next(pool, o, z).zone == z
  {
    ZonePartZone(pool, z);
    ReverseZone(ZonePart(pool, z), z);
  }

  lemma NextIsLatest(pool: seq<Instance>, o: seq<Instance>, z: string)
    requires Latest(o, pool) && Count(o, z) < Count(pool, z)
    ensures Latest(o + [Next(pool, o, z)], pool)
  {
    NextZone(pool, o, z);
    forall y
      ensures ZonePart(o + [Next(pool, o, z)], y) <= Reverse(ZonePart(pool, y))
    {
      ZonePartSnoc(o, Next(pool, o, z), y);
      assert ZonePart(o, y) <= Reverse(ZonePart(pool, y));
      if y == z {
        OneFurther(ZonePart(o, z), Reverse(ZonePart(pool, z)));
      }
    }
  }

  lemma OneFurther<T>(a: seq<T>, b: seq<T>)
    requires a <= b && |a| < |b|
    ensures a + [b[|a|]] <= b
  {
  }

  lemma NextIsFair(pool: seq<Instance>, o: seq<Instance>, z: string)
    requires FairThroughout(pool, o) && LeastZone(pool, o, z)
    ensures FairThroughout(pool, o + [Next(pool, o, z)])
  {
    var c := o + [Next(pool, o, z)];
    NextZone(pool, o, z);
    assert Fair(pool, o) by {
      assert o[..|o|] == o;
    }
    forall ahead, behind | |ZonePart(c, behind)| < |ZonePart(pool, behind)|
      ensures |ZonePart(c, ahead)| <= |ZonePart(c, behind)| + 1
    {
      CountSnoc(o, Next(pool, o, z), ahead);
      CountSnoc(o, Next(pool, o, z), behind);
      assert Count(o, behind) < Count(pool, behind);
      assert |ZonePart(o, ahead)| <= |ZonePart(o, behind)| + 1;
    }
    FairSnoc(pool, o, Next(pool, o, z));
  }

  /** A choice of the latest targets that is as long as the pool has taken every zone's targets. */
  lemma AllChosen(pool: seq<Instance>, o: seq<Instance>, z: string)
    requires Latest(o, pool) && |o| >= |pool|
    ensures Count(o, z) == Count(pool, z) && |o| == |pool|
  {
    forall v
      ensures Zones(o)[v] <= Zones(pool)[v]
    {
      ZonesCount(o, v);
      ZonesCount(pool, v);
      LatestCount(o, pool, v);
    }
    ZonesCount(o, z);
    ZonesCount(pool, z);
    assert Zones(pool) == Zones(o) + (Zones(pool) - Zones(o));
    assert |Zones(pool) - Zones(o)| == 0;
    assert Zones(pool) - Zones(o) == multiset{};
  }

  lemma ZoneLeft(pool: seq<Instance>, o: seq<Instance>) returns (z: string)
    requires Latest(o, pool) && |o| < |pool|
    ensures Count(o, z) < Count(pool, z)
  {
    forall v
      ensures Zones(o)[v] == Count(o, v) && |Zones(o)| == |o|
      ensures Zones(pool)[v] == Count(pool, v) && |Zones(pool)| == |pool|
    {
      ZonesCount(o, v);
      ZonesCount(pool, v);
    }
    if forall v :: Zones(pool)[v] <= Zones(o)[v] {
      Weakly(Zones(pool), Zones(o));
      assert false;
    }
    z :| Zones(o)[z] < Zones(pool)[z];
  }

  lemma Weakly(x: multiset<string>, y: multiset<string>)
    requires forall v :: x[v] <= y[v]
    ensures |x| <= |y|
  {
    assert y == x + (y - x);
  }

  lemma {:induction false} Complete(pool: seq<Instance>, o: seq<Instance>) returns (order: seq<Instance>)
    requires PartialOrder(pool, o)
    ensures IsZoneOrder(pool, order)
    decreases |pool| - |o|
  {
    if |o| < |pool| {
      var z := ZoneLeft(pool, o);
      var least := FindLeast(pool, o, z);
      NextIsLatest(pool, o, least);
      NextIsFair(pool, o, least);
      order := Complete(pool, o + [Next(pool, o, least)]);
    } else {
      order := o;
      FullIsOrder(pool, o);
    }
  }

  lemma FullIsOrder(pool: seq<Instance>, o: seq<Instance>)
    requires PartialOrder(pool, o) && |o| >= |pool|
    ensures IsZoneOrder(pool, o)
  {
    forall z
      ensures ZonePart(pool, z) == Reverse(ZonePart(o, z))
    {
      AllChosen(pool, o, z);
      assert ZonePart(o, z) <= Reverse(ZonePart(pool, z));
      assert ZonePart(o, z) == Reverse(ZonePart(pool, z));
      ReverseTwice(ZonePart(pool, z));
    }
  }

  lemma NothingIsPartial(pool: seq<Instance>)
    ensures PartialOrder(pool, [])
  {
    var none: seq<Instance> := [];
    assert forall z :: ZonePart(none, z) == [];
    assert Fair(pool, none) && none[..0] == none;
  }

  lemma SomeOrder(pool: seq<Instance>) returns (order: seq<Instance>)
    ensures IsZoneOrder(pool, order)
  {
    NothingIsPartial(pool);
    order := Complete(pool, []);
  }

  // ----- when a choice is forced -----

  /**
   * A choice of the latest targets is what every order of the pool starts with, exactly when it is
   * level: all zones have given the same number or all they have.
   */
  lemma ForcedIffLevelled(pool: seq<Instance>, chosen: seq<Instance>)
    requires Latest(chosen, pool) && |chosen| <= |pool|
    ensures (forall o :: IsZoneOrder(pool, o) ==> multiset(Take(o, |chosen|)) == multiset(chosen)) <==>
            Levelled(chosen, pool)
  {
    var n := |chosen|;
    if r: nat :| LevelAt(chosen, pool, r) {
      forall o | IsZoneOrder(pool, o)
        ensures multiset(Take(o, n)) == multiset(chosen)
      {
        ZoneOrderIsPermutation(pool, o);
        forall z
          ensures Count(o[..n], z) == Count(chosen, z)
        {
          LevelForced(pool, o, chosen, r, z);
        }
        PrefixIsLatest(pool, o, n);
        LatestByCount(o[..n], chosen, pool);
        assert Take(o, n) == o[..n];
      }
    } else {
      var o := AnotherPrefix(pool, chosen);
    }
  }

  /** The empty choice and the whole pool are level. */
  lemma EndsAreLevel(pool: seq<Instance>, chosen: seq<Instance>)
    requires Latest(chosen, pool) && (chosen == [] || |chosen| == |pool|)
    ensures Levelled(chosen, pool)
  {
    if chosen == [] {
      assert LevelAt(chosen, pool, 0);
    } else {
      forall z
        ensures Count(chosen, z) == Min(Count(pool, z), |pool|)
      {
        AllChosen(pool, chosen, z);
        ZonesCount(pool, z);
        assert Zones(pool)[z] <= |Zones(pool)|;
      }
      assert LevelAt(chosen, pool, |pool|);
    }
  }

  /** A choice that is not level is missed by some order of the pool. */
  lemma AnotherPrefix(pool: seq<Instance>, chosen: seq<Instance>) returns (o: seq<Instance>)
    requires Latest(chosen, pool) && |chosen| <= |pool| && !Levelled(chosen, pool)
    ensures IsZoneOrder(pool, o) && multiset(Take(o, |chosen|)) != multiset(chosen)
  {
    var n := |chosen|;
    if n == 0 || n == |pool| {
      EndsAreLevel(pool, chosen);
      assert false;
    }
    o := SomeOrder(pool);
    ZoneOrderIsPermutation(pool, o);
    if multiset(Take(o, n)) == multiset(chosen) {
      NotLevelToo(pool, o[..n], chosen);
      SwappedIsOrder(pool, o, n);
      OneExchanged(o, n);
      o := Swapped(o, n);
    }
  }

  lemma NotLevelToo(pool: seq<Instance>, a: seq<Instance>, b: seq<Instance>)
    requires multiset(a) == multiset(b) && !Levelled(b, pool)
    ensures !Levelled(a, pool)
  {
    if r: nat :| LevelAt(a, pool, r) {
      forall z
        ensures Count(b, z) == Min(Count(pool, z), r)
      {
        SameCounts(a, b, z);
      }
      assert LevelAt(b, pool, r);
      assert false;
    }
  }

  lemma OneExchanged(o: seq<Instance>, n: nat)
    requires 0 < n < |o| && o[n] != o[n - 1]
    ensures multiset(Take(Swapped(o, n), n)) != multiset(Take(o, n))
  {
    SwappedPrefix(o, n, n);
    assert o[..n] == o[..n - 1] + [o[n - 1]];
    assert multiset(o[..n - 1] + [o[n]])[o[n]] == multiset(o[..n - 1])[o[n]] + 1;
    assert multiset(o[..n - 1] + [o[n - 1]])[o[n]] == multiset(o[..n - 1])[o[n]];
  }
}
