/**
 `[...new Set(xs)]`: the distinct values of a sequence in the order in which a
 JavaScript `Set` first receives them, and occurrence counts over sequences.
 */
module Dedup {

  import opened Records

  /** No value occurs twice in `xs`. */
  predicate NoDuplicates(xs: seq<Value>) {
    forall i, j :: 0 <= i < j < |xs| ==> xs[i] != xs[j]
  }

  /** The position of the first occurrence of `x` in `xs`. */
  function FirstIndex(xs: seq<Value>, x: Value): (i: nat)
    requires x in xs
    ensures i < |xs| && xs[i] == x
    ensures forall j :: 0 <= j < i ==> xs[j] != x
  {
    if xs[0] == x then 0 else 1 + FirstIndex(xs[1..], x)
  }

  /** The values that adding the elements of `xs`, left to right, to a `Set`
      already holding `seen` inserts, in insertion order. */
  function DistinctFrom(xs: seq<Value>, seen: set<Value>): (r: seq<Value>)
    ensures NoDuplicates(r)
    ensures forall x :: x in r <==> x in xs && x !in seen
    ensures |r| <= |xs|
  {
    if xs == [] then []
    else if xs[0] in seen then DistinctFrom(xs[1..], seen)
    else [xs[0]] + DistinctFrom(xs[1..], seen + {xs[0]})
  }

  /** `[...new Set(xs)]`: every value of `xs` exactly once. */
  function Distinct(xs: seq<Value>): (r: seq<Value>)
    ensures NoDuplicates(r)
    ensures forall x :: x in r <==> x in xs
    ensures |r| <= |xs|
  {
    DistinctFrom(xs, {})
  }

  /** The elements of `r`, all of which occur in `xs`, are listed in the order
      of their first occurrence in `xs`. */
  predicate InFirstSeenOrder(xs: seq<Value>, r: seq<Value>)
    requires forall k :: 0 <= k < |r| ==> r[k] in xs
  {
    forall i, j :: 0 <= i < j < |r| ==> FirstIndex(xs, r[i]) < FirstIndex(xs, r[j])
  }

  /** The values left by `DistinctFrom` come in the order of their first
      occurrence in `xs`. */
  lemma {:induction false} DistinctFromInFirstSeenOrder(xs: seq<Value>, seen: set<Value>)
    ensures InFirstSeenOrder(xs, DistinctFrom(xs, seen))
  {
    if xs != [] {
      var r := DistinctFrom(xs, seen);
      var seen' := if xs[0] in seen then seen else seen + {xs[0]};
      var rest := DistinctFrom(xs[1..], seen');
      DistinctFromInFirstSeenOrder(xs[1..], seen');
      // Every value in `rest` differs from xs[0], so its first index in xs is
      // one past its first index in xs[1..].
      forall k | 0 <= k < |rest|
        ensures rest[k] != xs[0] && FirstIndex(xs, rest[k]) == 1 + FirstIndex(xs[1..], rest[k])
      {
        assert rest[k] in rest;
      }
      if xs[0] in seen {
        assert r == rest;
      } else {
        assert r == [xs[0]] + rest;
        assert FirstIndex(xs, r[0]) == 0;
        forall i, j | 0 <= i < j < |r|
          ensures FirstIndex(xs, r[i]) < FirstIndex(xs, r[j])
        {
          assert r[j] == rest[j - 1];
          if i > 0 {
            assert r[i] == rest[i - 1];
          }
        }
      }
    }
  }

  /** The values of `Distinct(xs)` come in the order of their first occurrence
      in `xs`, as a `Set` iterates in insertion order. */
  lemma DistinctInFirstSeenOrder(xs: seq<Value>)
    ensures InFirstSeenOrder(xs, Distinct(xs))
  {
    DistinctFromInFirstSeenOrder(xs, {});
  }

  /** Two lists of the same values in first-seen order of `xs` start alike. */
  lemma SameFirst(xs: seq<Value>, p: seq<Value>, q: seq<Value>)
    requires forall k :: 0 <= k < |p| ==> p[k] in xs
    requires forall k :: 0 <= k < |q| ==> q[k] in xs
    requires forall v :: v in p <==> v in q
    requires InFirstSeenOrder(xs, p) && InFirstSeenOrder(xs, q)
    requires p != []
    ensures q != [] && p[0] == q[0]
  {
    assert p[0] in q;
    var j :| 0 <= j < |q| && q[j] == p[0];
    assert q[0] in p;
    var j' :| 0 <= j' < |p| && p[j'] == q[0];
    assert j == 0 || j' == 0;
  }

  /** Dropping the first value of a duplicate-free list in first-seen order
      leaves one, holding every other value. */
  lemma RestInFirstSeenOrder(xs: seq<Value>, p: seq<Value>)
    requires forall k :: 0 <= k < |p| ==> p[k] in xs
    requires NoDuplicates(p) && InFirstSeenOrder(xs, p)
    requires p != []
    ensures forall k :: 0 <= k < |p[1..]| ==> p[1..][k] in xs
    ensures NoDuplicates(p[1..]) && InFirstSeenOrder(xs, p[1..])
    ensures forall v :: v in p[1..] <==> v in p && v != p[0]
  {
    var p' := p[1..];
    forall v ensures v in p' <==> v in p && v != p[0] {
      if v in p' {
        var k :| 0 <= k < |p'| && p'[k] == v;
        assert p[k + 1] == v;
      }
      if v in p && v != p[0] {
        var k :| 0 <= k < |p| && p[k] == v;
        assert p'[k - 1] == v;
      }
    }
  }

  /** Two duplicate-free sequences with the same elements, both listed in
      first-seen order of `xs`, are equal. */
  lemma {:induction false} FirstSeenOrderUnique(xs: seq<Value>, p: seq<Value>, q: seq<Value>)
    requires forall k :: 0 <= k < |p| ==> p[k] in xs
    requires forall k :: 0 <= k < |q| ==> q[k] in xs
    requires NoDuplicates(p) && NoDuplicates(q)
    requires forall v :: v in p <==> v in q
    requires InFirstSeenOrder(xs, p) && InFirstSeenOrder(xs, q)
    ensures p == q
    decreases |p|
  {
    if p == [] {
      assert forall k :: 0 <= k < |q| ==> q[k] !in p;
    } else {
      SameFirst(xs, p, q);
      RestInFirstSeenOrder(xs, p);
      RestInFirstSeenOrder(xs, q);
      FirstSeenOrderUnique(xs, p[1..], q[1..]);
      assert p == [p[0]] + p[1..] && q == [q[0]] + q[1..];
    }
  }

  /** The three properties of `Distinct` pin it down: any duplicate-free list
      of exactly the values of `xs`, in first-seen order, is `Distinct(xs)`. */
  lemma DistinctIsUnique(xs: seq<Value>, r: seq<Value>)
    requires NoDuplicates(r)
    requires forall v :: v in r <==> v in xs
    requires InFirstSeenOrder(xs, r)
    ensures r == Distinct(xs)
  {
    DistinctInFirstSeenOrder(xs);
    FirstSeenOrderUnique(xs, r, Distinct(xs));
  }

  /** How many elements of `xs` equal `x`. */
  function Count(xs: seq<Value>, x: Value): (n: nat)
    ensures n <= |xs|
    ensures n == 0 <==> x !in xs
  {
    if xs == [] then 0 else (if xs[0] == x then 1 else 0) + Count(xs[1..], x)
  }

  /** How many elements of `xs` are outside `seen`. */
  function CountOutside(xs: seq<Value>, seen: set<Value>): (n: nat)
    ensures n <= |xs|
  {
    if xs == [] then 0 else (if xs[0] in seen then 0 else 1) + CountOutside(xs[1..], seen)
  }

  /** `ds.map(d => Count(xs, d))`. */
  function CountsOf(xs: seq<Value>, ds: seq<Value>): (cs: seq<nat>)
    ensures |cs| == |ds|
    ensures forall i :: 0 <= i < |ds| ==> cs[i] == Count(xs, ds[i])
  {
    if ds == [] then [] else [Count(xs, ds[0])] + CountsOf(xs, ds[1..])
  }

  /** The sum of a sequence of counts. */
  function Sum(ns: seq<nat>): nat {
    if ns == [] then 0 else ns[0] + Sum(ns[1..])
  }

  /** Putting one more value `x` into `seen` moves exactly its occurrences out
      of the tally of elements outside `seen`. */
  lemma {:induction false} CountOutsideSplit(xs: seq<Value>, seen: set<Value>, x: Value)
    requires x !in seen
    ensures CountOutside(xs, seen) == Count(xs, x) + CountOutside(xs, seen + {x})
  {
    if xs != [] {
      CountOutsideSplit(xs[1..], seen, x);
    }
  }

  /** Counting values that all differ from `x` gives the same tallies in
      `[x] + ys` as in `ys`. */
  lemma {:induction false} SumCountsOfCons(x: Value, ys: seq<Value>, ds: seq<Value>)
    requires x !in ds
    ensures Sum(CountsOf([x] + ys, ds)) == Sum(CountsOf(ys, ds))
  {
    if ds != [] {
      assert ([x] + ys)[1..] == ys;
      SumCountsOfCons(x, ys, ds[1..]);
    }
  }

  /** The occurrence counts of the values `DistinctFrom` keeps add up to the
      number of elements outside `seen`. */
  lemma {:induction false} SumCountsDistinctFrom(xs: seq<Value>, seen: set<Value>)
    ensures Sum(CountsOf(xs, DistinctFrom(xs, seen))) == CountOutside(xs, seen)
  {
    if xs != [] {
      var x, ys := xs[0], xs[1..];
      assert xs == [x] + ys;
      if x in seen {
        var d := DistinctFrom(ys, seen);
        SumCountsDistinctFrom(ys, seen);
        SumCountsOfCons(x, ys, d);
      } else {
        var d := DistinctFrom(ys, seen + {x});
        SumCountsDistinctFrom(ys, seen + {x});
        SumCountsOfCons(x, ys, d);
        CountOutsideSplit(ys, seen, x);
        assert CountsOf(xs, [x] + d) == [Count(xs, x)] + CountsOf(xs, d);
      }
    }
  }

  /** Counting every distinct value of `xs` accounts for each element once:
      the counts add up to `|xs|`. */
  lemma SumCountsDistinct(xs: seq<Value>)
    ensures Sum(CountsOf(xs, Distinct(xs))) == |xs|
  {
    SumCountsDistinctFrom(xs, {});
    CountOutsideNone(xs);
  }

  /** With nothing seen, every element is outside. */
  lemma {:induction false} CountOutsideNone(xs: seq<Value>)
    ensures CountOutside(xs, {}) == |xs|
  {
    if xs != [] {
      CountOutsideNone(xs[1..]);
    }
  }
}
