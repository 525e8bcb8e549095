/** The statistics that step durations are flushed into; step names matter only up to equality. */
module Statistics {

  datatype Duration<K> = Duration(step: K, length: int)

  /** Durations by node. */
  type Log<K> = map<string, seq<Duration<K>>>

  datatype Stat<K> = Stat(step: K, sum: int, count: int)

  datatype Tally = Tally(sum: int, count: int)

  function Plus(a: Tally, b: Tally): Tally {
    Tally(a.sum + b.sum, a.count + b.count)
  }

  /** The sum and number of the durations of one step. */
  ghost function TallyOf<K>(ds: seq<Duration<K>>, step: K): Tally {
    if ds == [] then Tally(0, 0) else Plus(TallyOne(ds[0], step), TallyOf(ds[1..], step))
  }

  ghost function TallyOne<K>(d: Duration<K>, step: K): Tally {
    if d.step == step then Tally(d.length, 1) else Tally(0, 0)
  }

  lemma {:induction false} TallySnoc<K>(ds: seq<Duration<K>>, d: Duration<K>, step: K)
    ensures TallyOf(ds + [d], step) == Plus(TallyOf(ds, step), TallyOne(d, step))
  {
    if ds == [] {
      assert ds + [d] == [d];
    } else {
      assert (ds + [d])[1..] == ds[1..] + [d];
      TallySnoc(ds[1..], d, step);
    }
  }

  ghost function SomeNode(nodes: set<string>): string
    requires nodes != {}
    ensures SomeNode(nodes) in nodes
  {
    var n :| n in nodes; n
  }

  /** The sum over a set of nodes, taken one at a time. */
  ghost function SumOver(t: map<string, Tally>, nodes: set<string>): Tally
    requires nodes <= t.Keys
  {
    if nodes == {} then Tally(0, 0) else Plus(t[SomeNode(nodes)], SumOver(t, nodes - {SomeNode(nodes)}))
  }

  /** The order in which the nodes are taken does not matter. */
  lemma {:induction false} SumOverAny(t: map<string, Tally>, nodes: set<string>, n: string)
    requires n in nodes && nodes <= t.Keys
    ensures SumOver(t, nodes) == Plus(t[n], SumOver(t, nodes - {n}))
    decreases nodes
  {
    var m := SomeNode(nodes);
    if m != n {
      SumOverAny(t, nodes - {m}, n);
      SumOverAny(t, nodes - {n}, m);
      assert nodes - {n} - {m} == nodes - {m} - {n};
    }
  }

  ghost function PerNode<K>(log: Log<K>, step: K): map<string, Tally> {
    map n | n in log :: TallyOf(log[n], step)
  }

  ghost function TallyOfStats<K>(stats: seq<Stat<K>>, step: K): Tally {
    if stats == [] then Tally(0, 0)
    else if stats[0].step == step then Tally(stats[0].sum, stats[0].count)
    else TallyOfStats(stats[1..], step)
  }

  ghost predicate OneEntryEach<K>(stats: seq<Stat<K>>) {
    forall i, j :: 0 <= i < j < |stats| ==> stats[i].step != stats[j].step
  }

  lemma {:induction false} TallyUpdate<K>(stats: seq<Stat<K>>, i: nat, s: Stat<K>, step: K)
    requires OneEntryEach(stats) && i < |stats| && stats[i].step == s.step
    ensures TallyOfStats(stats[i := s], step) ==
            if step == s.step then Tally(s.sum, s.count) else TallyOfStats(stats, step)
    ensures step == s.step ==> TallyOfStats(stats, step) == Tally(stats[i].sum, stats[i].count)
  {
    if i > 0 {
      assert stats[i := s][1..] == stats[1..][i - 1 := s];
      TallyUpdate(stats[1..], i - 1, s, step);
    }
  }

  lemma {:induction false} TallyAppend<K>(stats: seq<Stat<K>>, s: Stat<K>, step: K)
    requires forall i :: 0 <= i < |stats| ==> stats[i].step != s.step
    ensures TallyOfStats(stats + [s], step) ==
            if step == s.step then Tally(s.sum, s.count) else TallyOfStats(stats, step)
    ensures step == s.step ==> TallyOfStats(stats, step) == Tally(0, 0)
  {
    if stats != [] {
      assert (stats + [s])[1..] == stats[1..] + [s];
      TallyAppend(stats[1..], s, step);
    }
  }

  lemma PlusAssociative(x: Tally, y: Tally, z: Tally)
    ensures Plus(Plus(x, y), z) == Plus(x, Plus(y, z))
  {
  }

  lemma PlusZero(x: Tally)
    ensures Plus(x, Tally(0, 0)) == x == Plus(Tally(0, 0), x)
  {
  }

  lemma PlusSwap(x: Tally, y: Tally, z: Tally)
    ensures Plus(Plus(x, y), z) == Plus(x, Plus(z, y))
  {
  }

  lemma OneEntryMore<K>(stats: seq<Stat<K>>, s: Stat<K>)
    requires OneEntryEach(stats) && forall i :: 0 <= i < |stats| ==> stats[i].step != s.step
    ensures OneEntryEach(stats + [s])
  {
  }

  /** One duration was added: its step's entry grew by it, the others did not. */
  ghost predicate AddsOne<K(!new)>(before: seq<Stat<K>>, after: seq<Stat<K>>, d: Duration<K>) {
    forall step :: TallyOfStats(after, step) == Plus(TallyOfStats(before, step), TallyOne(d, step))
  }

  lemma AddsInPlace<K(!new)>(stats: seq<Stat<K>>, i: nat, d: Duration<K>)
    requires OneEntryEach(stats) && i < |stats| && stats[i].step == d.step
    ensures var after := stats[i := Stat(d.step, stats[i].sum + d.length, stats[i].count + 1)];
            OneEntryEach(after) && AddsOne(stats, after, d)
  {
    var s := Stat(d.step, stats[i].sum + d.length, stats[i].count + 1);
    forall step
      ensures TallyOfStats(stats[i := s], step) == Plus(TallyOfStats(stats, step), TallyOne(d, step))
    {
      TallyUpdate(stats, i, s, step);
    }
  }

  lemma AddsAtEnd<K(!new)>(stats: seq<Stat<K>>, d: Duration<K>)
    requires OneEntryEach(stats) && forall i :: 0 <= i < |stats| ==> stats[i].step != d.step
    ensures var after := stats + [Stat(d.step, d.length, 1)];
            OneEntryEach(after) && AddsOne(stats, after, d)
  {
    var s := Stat(d.step, d.length, 1);
    OneEntryMore(stats, s);
    forall step
      ensures TallyOfStats(stats + [s], step) == Plus(TallyOfStats(stats, step), TallyOne(d, step))
    {
      TallyAppend(stats, s, step);
      PlusZero(TallyOfStats(stats, step));
      PlusZero(TallyOne(d, step));
    }
  }

  /** All durations of one node were added. */
  ghost predicate Adds<K(!new)>(before: seq<Stat<K>>, after: seq<Stat<K>>, ds: seq<Duration<K>>) {
    forall step :: TallyOfStats(after, step) == Plus(TallyOfStats(before, step), TallyOf(ds, step))
  }

  lemma AddsSnoc<K(!new)>(a: seq<Stat<K>>, b: seq<Stat<K>>, c: seq<Stat<K>>, ds: seq<Duration<K>>, d: Duration<K>)
    requires Adds(a, b, ds) && AddsOne(b, c, d)
    ensures Adds(a, c, ds + [d])
  {
    forall step
      ensures TallyOfStats(c, step) == Plus(TallyOfStats(a, step), TallyOf(ds + [d], step))
    {
      var x, y, z := TallyOfStats(a, step), TallyOf(ds, step), TallyOne(d, step);
      assert TallyOfStats(b, step) == Plus(x, y);
      assert TallyOfStats(c, step) == Plus(Plus(x, y), z);
      TallySnoc(ds, d, step);
      PlusAssociative(x, y, z);
    }
  }

  /** All durations of a set of nodes were added. */
  ghost predicate AddsLogs<K(!new)>(before: seq<Stat<K>>, after: seq<Stat<K>>, log: Log<K>, nodes: set<string>)
    requires nodes <= log.Keys
  {
    forall step :: TallyOfStats(after, step) == Plus(TallyOfStats(before, step), SumOver(PerNode(log, step), nodes))
  }

  lemma AddsNothing<K(!new)>(a: seq<Stat<K>>, log: Log<K>)
    ensures AddsLogs(a, a, log, {})
  {
  }

  lemma SumWithNode<K>(log: Log<K>, nodes: set<string>, n: string, step: K)
    requires nodes <= log.Keys && n in log && n !in nodes
    ensures SumOver(PerNode(log, step), nodes + {n}) == Plus(TallyOf(log[n], step), SumOver(PerNode(log, step), nodes))
  {
    SumOverAny(PerNode(log, step), nodes + {n}, n);
    assert nodes + {n} - {n} == nodes;
  }

  lemma AddsNode<K(!new)>(a: seq<Stat<K>>, b: seq<Stat<K>>, c: seq<Stat<K>>, log: Log<K>, nodes: set<string>, n: string)
    requires nodes <= log.Keys && n in log && n !in nodes
    requires AddsLogs(a, b, log, nodes) && Adds(b, c, log[n])
    ensures AddsLogs(a, c, log, nodes + {n})
  {
    forall step
      ensures TallyOfStats(c, step) == Plus(TallyOfStats(a, step), SumOver(PerNode(log, step), nodes + {n}))
    {
      var x, y, z := TallyOfStats(a, step), SumOver(PerNode(log, step), nodes), TallyOf(log[n], step);
      assert TallyOfStats(b, step) == Plus(x, y);
      assert TallyOfStats(c, step) == Plus(Plus(x, y), z);
      SumWithNode(log, nodes, n, step);
      PlusSwap(x, y, z);
    }
  }

  ghost function TallyOfFlushes<K>(flushes: seq<Log<K>>, step: K): Tally {
    if flushes == [] then Tally(0, 0) else
      Plus(SumOver(PerNode(flushes[0], step), flushes[0].Keys), TallyOfFlushes(flushes[1..], step))
  }

  lemma {:induction false} FlushesSnoc<K>(flushes: seq<Log<K>>, log: Log<K>, step: K)
    ensures TallyOfFlushes(flushes + [log], step) ==
            Plus(TallyOfFlushes(flushes, step), SumOver(PerNode(log, step), log.Keys))
  {
    if flushes == [] {
      assert flushes + [log] == [log];
    } else {
      assert (flushes + [log])[1..] == flushes[1..] + [log];
      FlushesSnoc(flushes[1..], log, step);
    }
  }

  /** One entry per step name, holding the sum and number of all durations flushed for it. */
  ghost predicate Conserves<K(!new)>(stats: seq<Stat<K>>, flushes: seq<Log<K>>) {
    OneEntryEach(stats) && forall step :: TallyOfStats(stats, step) == TallyOfFlushes(flushes, step)
  }

  lemma ConservesFlush<K(!new)>(a: seq<Stat<K>>, b: seq<Stat<K>>, flushes: seq<Log<K>>, log: Log<K>)
    requires Conserves(a, flushes) && OneEntryEach(b) && AddsLogs(a, b, log, log.Keys)
    ensures Conserves(b, flushes + [log])
  {
    forall step
      ensures TallyOfStats(b, step) == TallyOfFlushes(flushes + [log], step)
    {
      FlushesSnoc(flushes, log, step);
    }
  }

  class Statistics<K(==,!new)> {
    var entries: seq<Stat<K>>
    ghost var flushed: seq<Log<K>>

    ghost predicate Valid()
      reads this
    {
      Conserves(entries, flushed)
    }

    constructor ()
      ensures Valid() && flushed == []
    {
      entries, flushed := [], [];
    }

    method AddNodeStepDuration(d: Duration<K>)
      requires OneEntryEach(entries)
      modifies this`entries
      ensures OneEntryEach(entries) && AddsOne(old(entries), entries, d)
    {
      for i := 0 to |entries|
        invariant entries == old(entries)
        invariant forall j :: 0 <= j < i ==> entries[j].step != d.step
      {
        if entries[i].step == d.step {
          AddsInPlace(entries, i, d);
          entries := entries[i := Stat(d.step, entries[i].sum + d.length, entries[i].count + 1)];
          return;
        }
      }
      AddsAtEnd(entries, d);
      entries := entries + [Stat(d.step, d.length, 1)];
    }

    /** The inner loop of a flush: all durations of one node. */
    method AddNode(ds: seq<Duration<K>>)
      requires OneEntryEach(entries)
      modifies this`entries
      ensures OneEntryEach(entries) && Adds(old(entries), entries, ds)
    {
      for i := 0 to |ds|
        invariant OneEntryEach(entries) && Adds(old(entries), entries, ds[..i])
      {
        ghost var mid := entries;
        AddNodeStepDuration(ds[i]);
        AddsSnoc(old(entries), mid, entries, ds[..i], ds[i]);
        assert ds[..i + 1] == ds[..i] + [ds[i]];
      }
      assert ds[..|ds|] == ds;
    }

    /** A flush, whatever order the map yields the nodes in. */
    method UpdateStatistics(nodeSteps: Log<K>)
      requires Valid()
      modifies this
      ensures Valid() && flushed == old(flushed) + [nodeSteps]
    {
      var nodes, done: set<string> := nodeSteps.Keys, {};
      AddsNothing(entries, nodeSteps);
      while nodes != {}
        invariant nodes + done == nodeSteps.Keys && nodes !! done
        invariant OneEntryEach(entries) && flushed == old(flushed)
        invariant AddsLogs(old(entries), entries, nodeSteps, done)
        decreases nodes
      {
        var n :| n in nodes;
        ghost var mid := entries;
        AddNode(nodeSteps[n]);
        AddsNode(old(entries), mid, entries, nodeSteps, done, n);
        nodes, done := nodes - {n}, done + {n};
      }
      ConservesFlush(old(entries), entries, flushed, nodeSteps);
      flushed := flushed + [nodeSteps];
    }
  }
}
