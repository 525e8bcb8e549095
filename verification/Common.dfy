/** String folding and the sequence facts shared by the other modules. */
module Common {

  datatype Option<+T> = None | Some(value: T)

  // ----- strings.EqualFold, on ASCII letters -----

  function FoldChar(c: char): char {
    if 'A' <= c <= 'Z' then (c as int + 32) as char else c
  }

  function Fold(s: string): string {
    seq(|s|, i requires 0 <= i < |s| => FoldChar(s[i]))
  }

  predicate EqualFold(a: string, b: string) {
    Fold(a) == Fold(b)
  }

  predicate ContainsEqualFold(items: seq<string>, s: string) {
    exists i :: 0 <= i < |items| && EqualFold(items[i], s)
  }

  // ----- sequences without repetition -----

  ghost predicate Distinct<T>(s: seq<T>) {
    forall i, j :: 0 <= i < j < |s| ==> s[i] != s[j]
  }

  function Elems<T>(s: seq<T>): set<T> {
    set x | x in s
  }

  function Take<T>(s: seq<T>, k: nat): (r: seq<T>)
    ensures |r| <= k && r <= s
  {
    if k < |s| then s[..k] else s
  }

  /** The elements of `s` that lie in `keep`, in the order of `s`. */
  function Pick<T>(s: seq<T>, keep: set<T>): (r: seq<T>)
    ensures forall x :: x in r ==> x in s && x in keep
    ensures forall x :: x in s && x in keep ==> x in r
  {
    if s == [] then [] else
      (if s[0] in keep then [s[0]] else []) + Pick(s[1..], keep)
  }

  lemma {:induction false} DistinctTail<T>(s: seq<T>)
    requires s != [] && Distinct(s)
    ensures Distinct(s[1..]) && s[0] !in s[1..]
  {
    assert forall i :: 0 < i < |s| ==> s[0] != s[i];
  }

  lemma {:induction false} DistinctCard<T>(s: seq<T>)
    requires Distinct(s)
    ensures |Elems(s)| == |s|
  {
    if s != [] {
      DistinctTail(s);
      DistinctCard(s[1..]);
      assert Elems(s) == {s[0]} + Elems(s[1..]);
    }
  }

  lemma {:induction false} PickDistinct<T>(s: seq<T>, keep: set<T>)
    requires Distinct(s)
    ensures Distinct(Pick(s, keep))
  {
    if s != [] {
      DistinctTail(s);
      PickDistinct(s[1..], keep);
    }
  }

  lemma {:induction false} PickLength<T>(s: seq<T>, keep: set<T>)
    requires Distinct(s)
    ensures |Pick(s, keep)| == |Elems(s) * keep|
  {
    PickDistinct(s, keep);
    DistinctCard(Pick(s, keep));
    assert Elems(Pick(s, keep)) == Elems(s) * keep;
  }

  lemma {:induction false} PickConcat<T>(a: seq<T>, b: seq<T>, keep: set<T>)
    ensures Pick(a + b, keep) == Pick(a, keep) + Pick(b, keep)
  {
    if a == [] {
      assert a + b == b;
    } else {
      assert (a + b)[1..] == a[1..] + b;
      PickConcat(a[1..], b, keep);
    }
  }

  lemma PickSnoc<T>(s: seq<T>, i: nat, keep: set<T>)
    requires i < |s|
    ensures Pick(s[..i + 1], keep) == Pick(s[..i], keep) + if s[i] in keep then [s[i]] else []
  {
    assert s[..i + 1] == s[..i] + [s[i]];
    PickConcat(s[..i], [s[i]], keep);
  }

  lemma {:induction false} PickTwice<T>(s: seq<T>, a: set<T>, b: set<T>)
    ensures Pick(Pick(s, a), b) == Pick(s, a * b)
  {
    if s != [] {
      PickTwice(s[1..], a, b);
      PickConcat(if s[0] in a then [s[0]] else [], Pick(s[1..], a), b);
    }
  }

  lemma {:induction false} PickSame<T>(s: seq<T>, a: set<T>, b: set<T>)
    requires forall x :: x in s ==> (x in a <==> x in b)
    ensures Pick(s, a) == Pick(s, b)
  {
    if s != [] {
      PickSame(s[1..], a, b);
    }
  }

  lemma DistinctConcat<T>(a: seq<T>, b: seq<T>)
    requires Distinct(a) && Distinct(b) && Elems(a) !! Elems(b)
    ensures Distinct(a + b)
  {
    forall i, j | 0 <= i < j < |a + b|
      ensures (a + b)[i] != (a + b)[j]
    {
      if i < |a| <= j {
        assert (a + b)[i] in Elems(a) && (a + b)[j] in Elems(b);
      }
    }
  }

  lemma DistinctSnoc<T>(s: seq<T>, x: T)
    requires Distinct(s)
    ensures Distinct(s + [x]) <==> x !in s
  {
    if x in s {
      var i :| 0 <= i < |s| && s[i] == x;
      assert (s + [x])[i] == (s + [x])[|s|];
    }
  }

  lemma DistinctPrefix<T>(s: seq<T>, k: nat)
    requires Distinct(s)
    ensures Distinct(Take(s, k))
  {
  }

  // ----- first occurrences -----

  /** The elements of `s` in the order of their first occurrence. */
  function Once<T(==)>(s: seq<T>): seq<T> {
    if s == [] then [] else
      var init, last := s[..|s| - 1], s[|s| - 1];
      if last in init then Once(init) else Once(init) + [last]
  }

  lemma {:induction false} OnceElems<T>(s: seq<T>)
    ensures Elems(Once(s)) == Elems(s)
  {
    if s != [] {
      var init, last := s[..|s| - 1], s[|s| - 1];
      OnceElems(init);
      assert s == init + [last];
      assert Elems(s) == Elems(init) + {last};
      assert last in init ==> last in Elems(init);
    }
  }

  lemma OnceSnoc<T>(init: seq<T>, last: T)
    ensures Once(init + [last]) == if last in init then Once(init) else Once(init) + [last]
  {
    assert (init + [last])[..|init|] == init;
  }

  lemma {:induction false} OnceDistinct<T>(s: seq<T>)
    ensures Distinct(Once(s))
  {
    if s != [] {
      var init, last := s[..|s| - 1], s[|s| - 1];
      OnceDistinct(init);
      OnceElems(init);
      assert last !in init ==> last !in Elems(Once(init));
      DistinctSnoc(Once(init), last);
    }
  }

  lemma {:induction false} OnceSame<T>(s: seq<T>)
    requires Distinct(s)
    ensures Once(s) == s
  {
    if s != [] {
      OnceSame(s[..|s| - 1]);
    }
  }

  lemma PickLast<T>(init: seq<T>, last: T, keep: set<T>)
    ensures Pick(init + [last], keep) == if last in keep then Pick(init, keep) + [last] else Pick(init, keep)
  {
    PickConcat(init, [last], keep);
  }

  /** Picking from first occurrences gives the first occurrences of what is picked. */
  lemma {:induction false} OncePick<T>(s: seq<T>, keep: set<T>)
    ensures Once(Pick(s, keep)) == Pick(Once(s), keep)
  {
    if s != [] {
      var init, last := s[..|s| - 1], s[|s| - 1];
      assert s == init + [last];
      OncePick(init, keep);
      OncePickLast(init, last, keep);
    }
  }

  lemma OncePickLast<T>(init: seq<T>, last: T, keep: set<T>)
    requires Once(Pick(init, keep)) == Pick(Once(init), keep)
    ensures Once(Pick(init + [last], keep)) == Pick(Once(init + [last]), keep)
  {
    var picked := Pick(init, keep);
    PickLast(init, last, keep);
    OnceSnoc(init, last);
    if last in keep {
      assert last in picked <==> last in init;
      OnceSnoc(picked, last);
    }
    if last !in init {
      PickLast(Once(init), last, keep);
    }
  }

  lemma SubsetCard<T>(a: set<T>, b: set<T>)
    requires a <= b
    ensures |a| <= |b|
  {
    assert b == a + (b - a);
  }

  lemma SubsetOfSameSize<T>(a: set<T>, b: set<T>)
    requires a <= b && |a| == |b|
    ensures a == b
  {
    assert |b - a| == |b| - |a|;
  }

  lemma {:induction false} ElemsCard<T>(s: seq<T>)
    ensures |Elems(s)| <= |s|
  {
    if s != [] {
      ElemsCard(s[1..]);
      assert Elems(s) == {s[0]} + Elems(s[1..]);
    }
  }

  lemma {:induction false} FullCardDistinct<T>(s: seq<T>)
    requires |Elems(s)| == |s|
    ensures Distinct(s)
  {
    if s != [] {
      ElemsCard(s[1..]);
      assert Elems(s) == {s[0]} + Elems(s[1..]);
      FullCardDistinct(s[1..]);
      assert s[0] !in Elems(s[1..]);
    }
  }

  // ----- names that nobody has -----

  lemma {:induction false} LongerThanAll(names: set<string>) returns (k: nat)
    ensures forall n :: n in names ==> |n| < k
  {
    if names == {} {
      k := 0;
    } else {
      var n :| n in names;
      var rest := LongerThanAll(names - {n});
      k := rest + |n| + 1;
    }
  }

  lemma Unused(names: set<string>) returns (name: string)
    ensures name !in names && '/' !in name && forall n :: n in names ==> !EqualFold(n, name)
  {
    var k := LongerThanAll(names);
    name := seq(k, i requires 0 <= i < k => 'x');
    forall n | n in names
      ensures !EqualFold(n, name)
    {
      assert |Fold(n)| == |n| && |Fold(name)| == k;
    }
  }
}
