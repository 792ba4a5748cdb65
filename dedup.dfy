/**
 * The duplicate-free key list that the association loader keeps:
 * `if (!list.contains(k)) list.add(k)`, applied key after key.
 */
module Dedup {

  predicate NoDup<T(==)>(s: seq<T>)
  {
    forall i, j :: 0 <= i < j < |s| ==> s[i] != s[j]
  }

  /** One `contains`-guarded `add`. */
  function AddIfAbsent<T(==)>(s: seq<T>, x: T): seq<T>
  {
    if x in s then s else s + [x]
  }

  /** `AddIfAbsent` applied to the keys of `xs`, first to last. */
  function AddAll<T(==)>(s: seq<T>, xs: seq<T>): seq<T>
    decreases |xs|
  {
    if xs == [] then s else AddAll(AddIfAbsent(s, xs[0]), xs[1..])
  }

  /** The distinct elements of `xs`, by the list they build from empty. */
  function Distinct<T(==)>(xs: seq<T>): seq<T>
    decreases |xs|
  {
    if xs == [] then [] else AddIfAbsent(Distinct(xs[..|xs| - 1]), xs[|xs| - 1])
  }

  /** The position of the first occurrence of `x` in `xs`. */
  function FirstIndex<T(==)>(xs: seq<T>, x: T): (k: nat)
    requires x in xs
    ensures k < |xs| && xs[k] == x && x !in xs[..k]
    decreases |xs|
  {
    if xs[0] == x then 0
    else
      var k := 1 + FirstIndex(xs[1..], x);
      assert xs[..k] == [xs[0]] + xs[1..][..k - 1];
      k
  }

  /** The first occurrence of `x` in a prefix that holds it is its first occurrence in `xs`. */
  lemma {:induction false} FirstIndexInPrefix<T>(xs: seq<T>, n: nat, x: T)
    requires n <= |xs| && x in xs[..n]
    ensures x in xs && FirstIndex(xs, x) == FirstIndex(xs[..n], x)
  {
    var k' := FirstIndex(xs[..n], x);
    assert xs[..n][..k'] == xs[..k'] && xs[k'] == x;
  }

  /** Extending a list by the keys of `xs` keeps it duplicate-free and keeps what it held, in order. */
  lemma {:induction false} AddAllGrows<T>(s: seq<T>, xs: seq<T>)
    ensures var r := AddAll(s, xs); |s| <= |r| && r[..|s|] == s && (NoDup(s) ==> NoDup(r))
    ensures forall x :: x in AddAll(s, xs) <==> x in s || x in xs
    decreases |xs|
  {
    if xs != [] {
      AddAllGrows(AddIfAbsent(s, xs[0]), xs[1..]);
      assert xs == [xs[0]] + xs[1..];
      var s' := AddIfAbsent(s, xs[0]);
      assert s'[..|s|] == s;
      var r := AddAll(s, xs);
      assert r[..|s|] == r[..|s'|][..|s|];
    }
  }

  /** The key loop, started from empty, builds `Distinct`; started from a list, it continues it. */
  lemma {:induction false} AddAllDistinct<T>(xs: seq<T>, ys: seq<T>)
    ensures AddAll(Distinct(xs), ys) == Distinct(xs + ys)
    decreases |ys|
  {
    if ys == [] {
      assert xs + ys == xs;
    } else {
      var xs' := xs + [ys[0]];
      assert xs'[..|xs'| - 1] == xs;
      AddAllDistinct(xs', ys[1..]);
      assert xs' + ys[1..] == xs + ys;
    }
  }

  /** The distinct list holds every element of `xs` exactly once and nothing else. */
  lemma {:induction false} DistinctElements<T>(xs: seq<T>)
    ensures NoDup(Distinct(xs)) && forall x :: x in Distinct(xs) <==> x in xs
    decreases |xs|
  {
    if xs != [] {
      var n := |xs| - 1;
      DistinctElements(xs[..n]);
      assert xs == xs[..n] + [xs[n]];
    }
  }

  lemma DistinctMember<T>(xs: seq<T>, x: T)
    requires x in Distinct(xs)
    ensures x in xs
  {
    DistinctElements(xs);
  }

  /** Elements of `d` come in the order of their first occurrence in `xs`. */
  ghost predicate FirstSeenOrder<T>(d: seq<T>, xs: seq<T>)
  {
    forall i, j :: 0 <= i < j < |d| ==> d[i] in xs && d[j] in xs && FirstIndex(xs, d[i]) < FirstIndex(xs, d[j])
  }

  /** Adding one more element keeps the distinct list in first-seen order. */
  lemma FirstSeenOrderSnoc<T>(init: seq<T>, last: T)
    requires FirstSeenOrder(Distinct(init), init)
    requires forall x :: x in Distinct(init) <==> x in init
    ensures FirstSeenOrder(Distinct(init + [last]), init + [last])
  {
    var xs := init + [last];
    var n := |init|;
    assert xs[..n] == init;
    var d0, d := Distinct(init), Distinct(xs);
    assert last !in init ==> FirstIndex(xs, last) == n && d == d0 + [last];
    forall i, j | 0 <= i < j < |d|
      ensures d[i] in xs && d[j] in xs && FirstIndex(xs, d[i]) < FirstIndex(xs, d[j])
    {
      assert d[i] == d0[i] && d0[i] in d0;
      FirstIndexInPrefix(xs, n, d[i]);
      if j < |d0| {
        assert d[j] == d0[j] && d0[j] in d0;
        FirstIndexInPrefix(xs, n, d[j]);
      } else {
        assert FirstIndex(init, d[i]) < n;
      }
    }
  }

  /**
   * The distinct list holds every element of `xs` exactly once and nothing
   * else, each in the order of its first occurrence in `xs`.
   */
  lemma {:induction false} DistinctFirstSeen<T>(xs: seq<T>)
    ensures NoDup(Distinct(xs)) && forall x :: x in Distinct(xs) <==> x in xs
    ensures FirstSeenOrder(Distinct(xs), xs)
    decreases |xs|
  {
    DistinctElements(xs);
    if xs != [] {
      var init := xs[..|xs| - 1];
      DistinctFirstSeen(init);
      FirstSeenOrderSnoc(init, xs[|xs| - 1]);
      assert init + [xs[|xs| - 1]] == xs;
    }
  }

  /** `f` applied to each element of `xs`. */
  function Map<A, B>(f: A -> B, xs: seq<A>): (ys: seq<B>)
    ensures |ys| == |xs| && forall k :: 0 <= k < |xs| ==> ys[k] == f(xs[k])
  {
    seq(|xs|, k requires 0 <= k < |xs| => f(xs[k]))
  }

  /** `f` tells the elements of `xs` apart. */
  ghost predicate InjectiveOn<A, B>(f: A -> B, xs: seq<A>)
  {
    forall i, j :: 0 <= i < |xs| && 0 <= j < |xs| && f(xs[i]) == f(xs[j]) ==> xs[i] == xs[j]
  }

  /** Deduplicating images under a map that tells the elements apart is mapping the deduplicated elements. */
  lemma {:induction false} DistinctMap<A, B>(f: A -> B, xs: seq<A>)
    requires InjectiveOn(f, xs)
    ensures Distinct(Map(f, xs)) == Map(f, Distinct(xs))
    decreases |xs|
  {
    if xs != [] {
      var n := |xs| - 1;
      var init, last := xs[..n], xs[n];
      assert Map(f, xs)[..n] == Map(f, init);
      assert Map(f, xs)[n] == f(last);
      DistinctMap(f, init);
      var d := Distinct(init);
      if last !in d {
        forall i | 0 <= i < |d| ensures Map(f, d)[i] != f(last) {
          assert d[i] in d;
          DistinctMember(init, d[i]);
          var j :| 0 <= j < n && init[j] == d[i];
          assert xs[j] == d[i];
        }
        assert Map(f, d + [last]) == Map(f, d) + [f(last)];
      }
    }
  }
}
