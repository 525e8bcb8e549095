/** The orders that satisfy IsZoneOrder are exactly those the round-robin loop can come up with. */
module ZoneRounds {
  import opened Common
  import opened Fleet
  import opened ZoneOrder
  import opened ZoneLevels

  // ----- the loop, given the order in which each round visits the zones -----

  /** A visit takes the last target the zone has left, if it has one. */
  ghost function Visit(pool: seq<Instance>, taken: seq<Instance>, z: string): seq<Instance> {
    if Count(taken, z) < Count(pool, z) then taken + [Next(pool, taken, z)] else taken
  }

  ghost function Round(pool: seq<Instance>, taken: seq<Instance>, zones: seq<string>): seq<Instance> {
    if zones == [] then taken else
      Visit(pool, Round(pool, taken, zones[..|zones| - 1]), zones[|zones| - 1])
  }

  ghost function Loop(pool: seq<Instance>, visits: seq<seq<string>>): seq<Instance> {
    if visits == [] then [] else Round(pool, Loop(pool, visits[..|visits| - 1]), visits[|visits| - 1])
  }

  /** A round visits every zone that has targets, once. */
  ghost predicate Visiting(pool: seq<Instance>, zones: seq<string>) {
    Distinct(zones) && forall z :: z in zones <==> Count(pool, z) > 0
  }

  /** Some choice of an order for each round makes the loop end with the given targets. */
  ghost predicate FromLoop(pool: seq<Instance>, order: seq<Instance>) {
    && |order| == |pool|
    && exists visits :: (forall v :: v in visits ==> Visiting(pool, v)) && Loop(pool, visits) == order
  }

  // ----- what the loop makes is a zone order -----

  /** Within round `r`: zones seen have given one more than the others, or all they have. */
  ghost predicate At(pool: seq<Instance>, taken: seq<Instance>, r: nat, seen: seq<string>) {
    forall z :: Count(taken, z) == Min(Count(pool, z), Goal(r, seen, z))
  }

  ghost function Goal(r: nat, seen: seq<string>, z: string): nat {
    if z in seen then r + 1 else r
  }

  lemma VisitKeeps(pool: seq<Instance>, taken: seq<Instance>, r: nat, seen: seq<string>, z: string)
    requires PartialOrder(pool, taken) && At(pool, taken, r, seen) && z !in seen
    ensures PartialOrder(pool, Visit(pool, taken, z)) && At(pool, Visit(pool, taken, z), r, seen + [z])
  {
    assert Count(taken, z) == Min(Count(pool, z), r);
    if Count(taken, z) < Count(pool, z) {
      assert LeastZone(pool, taken, z);
      NextZone(pool, taken, z);
      NextIsLatest(pool, taken, z);
      NextIsFair(pool, taken, z);
      forall y
        ensures Count(taken + [Next(pool, taken, z)], y) == Count(taken, y) + if y == z then 1 else 0
      {
        CountSnoc(taken, Next(pool, taken, z), y);
      }
    }
  }

  lemma {:induction false} RoundKeeps(pool: seq<Instance>, taken: seq<Instance>, r: nat, zones: seq<string>)
    requires PartialOrder(pool, taken) && LevelAt(taken, pool, r) && Distinct(zones)
    ensures PartialOrder(pool, Round(pool, taken, zones)) && At(pool, Round(pool, taken, zones), r, zones)
  {
    if zones != [] {
      var init, z := zones[..|zones| - 1], zones[|zones| - 1];
      assert init + [z] == zones;
      DistinctSnoc(init, z);
      RoundKeeps(pool, taken, r, init);
      VisitKeeps(pool, Round(pool, taken, init), r, init, z);
    } else {
      forall z
        ensures Count(taken, z) == Min(Count(pool, z), Goal(r, zones, z))
      {
        assert Count(taken, z) == Min(Count(pool, z), r);
      }
    }
  }

  lemma RoundLevels(pool: seq<Instance>, taken: seq<Instance>, r: nat, zones: seq<string>)
    requires At(pool, taken, r, zones) && forall z :: Count(pool, z) > 0 ==> z in zones || Count(pool, z) <= r
    ensures LevelAt(taken, pool, r + 1)
  {
    forall z
      ensures Count(taken, z) == Min(Count(pool, z), r + 1)
    {
      assert Count(taken, z) == Min(Count(pool, z), Goal(r, zones, z));
    }
  }

  lemma {:induction false} LoopKeeps(pool: seq<Instance>, visits: seq<seq<string>>)
    requires forall v :: v in visits ==> Visiting(pool, v)
    ensures PartialOrder(pool, Loop(pool, visits)) && LevelAt(Loop(pool, visits), pool, |visits|)
  {
    if visits == [] {
      NothingIsPartial(pool);
      assert forall z :: Count([], z) == 0;
    } else {
      var init, v := visits[..|visits| - 1], visits[|visits| - 1];
      assert v in visits;
      LoopKeeps(pool, init);
      RoundKeeps(pool, Loop(pool, init), |init|, v);
      RoundLevels(pool, Loop(pool, visits), |init|, v);
    }
  }

  // ----- every zone order is made by the loop -----

  /** In a zone order, what comes next in a zone is the last target that zone has left. */
  lemma NextIsThere(pool: seq<Instance>, o: seq<Instance>, m: nat)
    requires IsZoneOrder(pool, o) && m < |o|
    ensures Count(o[..m], o[m].zone) < Count(pool, o[m].zone) && Next(pool, o[..m], o[m].zone) == o[m]
  {
    var y := o[m].zone;
    assert o[..m + 1] == o[..m] + [o[m]];
    ZonePartSnoc(o[..m], o[m], y);
    PartOfPrefix(o, m + 1, y);
    ReverseTwice(ZonePart(o, y));
    assert ZonePart(o, y) == Reverse(ZonePart(pool, y));
  }

  /** A zone that comes next is not ahead of another one that has targets left. */
  lemma NotAhead(pool: seq<Instance>, o: seq<Instance>, m: nat, z: string)
    requires IsZoneOrder(pool, o) && m < |o| && o[m].zone != z && Count(o[..m], z) < Count(pool, z)
    ensures Count(o[..m], o[m].zone) <= Count(o[..m], z)
  {
    assert o[..m + 1] == o[..m] + [o[m]];
    CountSnoc(o[..m], o[m], o[m].zone);
    CountSnoc(o[..m], o[m], z);
    FairCount(pool, o, m + 1, o[m].zone, z);
  }

  /** While some zone is still to give its target of the round, the next target comes from such a zone. */
  lemma NextUnseen(pool: seq<Instance>, o: seq<Instance>, m: nat, r: nat, seen: seq<string>, z: string)
    requires IsZoneOrder(pool, o) && m <= |o| && At(pool, o[..m], r, seen)
    requires z !in seen && Count(o[..m], z) < Count(pool, z)
    ensures m < |o| && o[m].zone !in seen
  {
    assert Count(o, z) == Count(pool, z) by {
      assert ZonePart(pool, z) == Reverse(ZonePart(o, z));
    }
    assert o[..|o|] == o;
    NextIsThere(pool, o, m);
    if o[m].zone != z {
      NotAhead(pool, o, m, z);
    }
    assert Count(o[..m], z) == Min(Count(pool, z), Goal(r, seen, z));
    assert Count(o[..m], o[m].zone) == Min(Count(pool, o[m].zone), Goal(r, seen, o[m].zone));
  }

  lemma AtSnoc(pool: seq<Instance>, o: seq<Instance>, m: nat, r: nat, seen: seq<string>)
    requires IsZoneOrder(pool, o) && m < |o| && At(pool, o[..m], r, seen) && o[m].zone !in seen
    ensures At(pool, o[..m + 1], r, seen + [o[m].zone]) && Count(pool, o[m].zone) > 0
  {
    var y := o[m].zone;
    NextIsThere(pool, o, m);
    assert o[..m + 1] == o[..m] + [o[m]];
    forall z
      ensures Count(o[..m + 1], z) == Min(Count(pool, z), Goal(r, seen + [y], z))
    {
      CountSnoc(o[..m], o[m], z);
      assert Count(o[..m], z) == Min(Count(pool, z), Goal(r, seen, z));
    }
  }

  lemma VisitNext(pool: seq<Instance>, o: seq<Instance>, m: nat)
    requires IsZoneOrder(pool, o) && m < |o|
    ensures Visit(pool, o[..m], o[m].zone) == o[..m + 1]
  {
    NextIsThere(pool, o, m);
    assert o[..m + 1] == o[..m] + [o[m]];
  }

  lemma RoundSnoc(pool: seq<Instance>, taken: seq<Instance>, zones: seq<string>, z: string)
    ensures Round(pool, taken, zones + [z]) == Visit(pool, Round(pool, taken, zones), z)
  {
    assert (zones + [z])[..|zones|] == zones;
  }

  /** Part of a round: the zones seen are those of the targets from `n` to `m`, in their order. */
  ghost predicate Walked(pool: seq<Instance>, o: seq<Instance>, n: nat, m: nat, r: nat, seen: seq<string>) {
    && n <= m <= |o|
    && At(pool, o[..m], r, seen) && Distinct(seen) && (forall z :: z in seen ==> Count(pool, z) > 0)
    && Round(pool, o[..n], seen) == o[..m]
  }

  lemma WalkOn(pool: seq<Instance>, o: seq<Instance>, n: nat, m: nat, r: nat, seen: seq<string>)
    requires IsZoneOrder(pool, o) && Walked(pool, o, n, m, r, seen) && m < |o| && o[m].zone !in seen
    ensures Walked(pool, o, n, m + 1, r, seen + [o[m].zone])
  {
    AtSnoc(pool, o, m, r, seen);
    VisitNext(pool, o, m);
    DistinctSnoc(seen, o[m].zone);
    RoundSnoc(pool, o[..n], seen, o[m].zone);
  }

  /** The targets of one round, in the order in which they come: those zones were visited first. */
  lemma {:induction false} WalkRound(pool: seq<Instance>, o: seq<Instance>, n: nat, m: nat, r: nat, seen: seq<string>)
    returns (m': nat, zones: seq<string>)
    requires IsZoneOrder(pool, o) && Walked(pool, o, n, m, r, seen)
    ensures m <= m' && Walked(pool, o, n, m', r, zones)
    ensures forall z :: z !in zones ==> Count(o[..m'], z) >= Count(pool, z)
    decreases |o| - m
  {
    if z :| z !in seen && Count(o[..m], z) < Count(pool, z) {
      NextUnseen(pool, o, m, r, seen, z);
      WalkOn(pool, o, n, m, r, seen);
      m', zones := WalkRound(pool, o, n, m + 1, r, seen + [o[m].zone]);
    } else {
      m', zones := m, seen;
    }
  }

  /** Zones that have nothing left may be visited afterwards, in any order. */
  lemma {:induction false} VisitExhausted(pool: seq<Instance>, taken: seq<Instance>, zones: seq<string>,
                                          rest: set<string>)
    returns (all: seq<string>)
    requires Distinct(zones) && (forall z :: z in rest ==> z !in zones && Count(pool, z) > 0)
    requires forall z :: z in rest ==> Count(Round(pool, taken, zones), z) >= Count(pool, z)
    ensures Distinct(all) && (forall z :: z in all <==> z in zones || z in rest)
    ensures Round(pool, taken, all) == Round(pool, taken, zones)
    decreases rest
  {
    if rest == {} {
      all := zones;
    } else {
      var z :| z in rest;
      DistinctSnoc(zones, z);
      RoundSnoc(pool, taken, zones, z);
      all := VisitExhausted(pool, taken, zones + [z], rest - {z});
    }
  }

  lemma {:induction false} ZoneHasTargets(pool: seq<Instance>, z: string)
    ensures Count(pool, z) > 0 <==> exists i :: i in pool && i.zone == z
  {
    if pool != [] {
      var init, last := pool[..|pool| - 1], pool[|pool| - 1];
      ZoneHasTargets(init, z);
      assert pool == init + [last];
    }
  }

  ghost function ZoneSet(pool: seq<Instance>): set<string> {
    set i | i in pool :: i.zone
  }

  /** One round of a zone order, as a round of the loop. */
  lemma OneRound(pool: seq<Instance>, o: seq<Instance>, n: nat, r: nat) returns (m: nat, all: seq<string>)
    requires IsZoneOrder(pool, o) && n < |o| && LevelAt(o[..n], pool, r)
    ensures n < m <= |o| && LevelAt(o[..m], pool, r + 1) && Visiting(pool, all) && Round(pool, o[..n], all) == o[..m]
  {
    NoneSeen(pool, o[..n], r);
    var zones;
    m, zones := WalkRound(pool, o, n, n, r, []);
    RoundDone(pool, o[..m], r, zones);
    Advanced(pool, o, n, m, r);
    ZonesWithTargets(pool);
    all := VisitExhausted(pool, o[..n], zones, ZoneSet(pool) - Elems(zones));
  }

  lemma NoneSeen(pool: seq<Instance>, taken: seq<Instance>, r: nat)
    requires LevelAt(taken, pool, r)
    ensures At(pool, taken, r, [])
  {
    forall z
      ensures Count(taken, z) == Min(Count(pool, z), Goal(r, [], z))
    {
      assert Count(taken, z) == Min(Count(pool, z), r);
    }
  }

  lemma ZonesWithTargets(pool: seq<Instance>)
    ensures forall z :: z in ZoneSet(pool) <==> Count(pool, z) > 0
  {
    forall z
      ensures z in ZoneSet(pool) <==> Count(pool, z) > 0
    {
      ZoneHasTargets(pool, z);
    }
  }

  /** When every zone not seen has nothing left, the round has reached the next level. */
  lemma RoundDone(pool: seq<Instance>, taken: seq<Instance>, r: nat, zones: seq<string>)
    requires At(pool, taken, r, zones) && forall z :: z !in zones ==> Count(taken, z) >= Count(pool, z)
    ensures LevelAt(taken, pool, r + 1)
  {
    forall z | Count(pool, z) > 0
      ensures z in zones || Count(pool, z) <= r
    {
      assert Count(taken, z) == Min(Count(pool, z), Goal(r, zones, z));
    }
    RoundLevels(pool, taken, r, zones);
  }

  lemma Advanced(pool: seq<Instance>, o: seq<Instance>, n: nat, m: nat, r: nat)
    requires IsZoneOrder(pool, o) && n < |o| && n <= m <= |o|
    requires LevelAt(o[..n], pool, r) && LevelAt(o[..m], pool, r + 1)
    ensures n < m
  {
    NextIsThere(pool, o, n);
    assert Count(o[..n], o[n].zone) == Min(Count(pool, o[n].zone), r);
    assert Count(o[..m], o[n].zone) == Min(Count(pool, o[n].zone), r + 1);
  }

  lemma {:induction false} Decompose(pool: seq<Instance>, o: seq<Instance>, n: nat, visits: seq<seq<string>>)
    returns (all: seq<seq<string>>)
    requires IsZoneOrder(pool, o) && n <= |o| && LevelAt(o[..n], pool, |visits|)
    requires (forall v :: v in visits ==> Visiting(pool, v)) && Loop(pool, visits) == o[..n]
    ensures (forall v :: v in all ==> Visiting(pool, v)) && Loop(pool, all) == o
    decreases |o| - n
  {
    if n == |o| {
      all := visits;
    } else {
      var m, v := OneRound(pool, o, n, |visits|);
      assert (visits + [v])[..|visits|] == visits;
      all := Decompose(pool, o, m, visits + [v]);
    }
  }

  /** The loop can come up with an order, for some order of the zones in each round, exactly when it is a zone order. */
  lemma OrdersOfTheLoop(pool: seq<Instance>, o: seq<Instance>)
    ensures FromLoop(pool, o) <==> IsZoneOrder(pool, o)
  {
    if FromLoop(pool, o) {
      var visits :| (forall v :: v in visits ==> Visiting(pool, v)) && Loop(pool, visits) == o;
      LoopKeeps(pool, visits);
      FullIsOrder(pool, o);
    }
    if IsZoneOrder(pool, o) {
      ZoneOrderIsPermutation(pool, o);
      assert forall z :: Count(o[..0], z) == 0;
      assert LevelAt(o[..0], pool, 0);
      var visits := Decompose(pool, o, 0, []);
    }
  }
}
