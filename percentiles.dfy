/**
 * Inclusive percentile of a value within a pool of values, as every
 * cohort-relative factor of the scoring engine computes it: the fraction of
 * the pool that is "no better than" the value, with ties counted.
 */
module Percentiles {
  import opened Sequences

  /** Which end of a factor's scale is the good one. */
  datatype Direction = LowerIsBetter | HigherIsBetter

  /** `x` is no better than `v`; inclusive, so a value is no better than itself. */
  predicate NoBetter(dir: Direction, x: real, v: real) {
    match dir
    case LowerIsBetter => x >= v
    case HigherIsBetter => x <= v
  }

  /** The number of pool entries no better than `v` (the source's `sum(1 for ...)`). */
  function CountNoBetter(dir: Direction, pool: seq<real>, v: real): (n: nat)
    ensures n <= |pool|
  {
    if pool == [] then 0
    else (if NoBetter(dir, pool[0], v) then 1 else 0) + CountNoBetter(dir, pool[1..], v)
  }

  /** The fraction of the pool that is no better than `v`. */
  function Percentile(dir: Direction, pool: seq<real>, v: real): (p: real)
    requires pool != []
    ensures 0.0 <= p <= 1.0
  {
    CountNoBetter(dir, pool, v) as real / |pool| as real
  }

  /** Applies `f` to every entry of `s`, keeping the order. */
  function Apply(f: real -> real, s: seq<real>): (r: seq<real>)
    ensures |r| == |s|
    ensures forall i :: 0 <= i < |s| ==> r[i] == f(s[i])
  {
    if s == [] then [] else [f(s[0])] + Apply(f, s[1..])
  }

  ghost predicate StrictlyIncreasing(f: real -> real) {
    forall x, y :: x < y ==> f(x) < f(y)
  }

  /** A value at least as good as another is no-better-than-or-equal to at least as many entries. */
  lemma {:induction false} CountMonotone(dir: Direction, pool: seq<real>, a: real, b: real)
    requires NoBetter(dir, b, a)
    ensures CountNoBetter(dir, pool, a) >= CountNoBetter(dir, pool, b)
  {
    if pool != [] {
      CountMonotone(dir, pool[1..], a, b);
    }
  }

  /** Percentile monotonicity: a value no worse than another has a percentile at least as high. */
  lemma PercentileMonotone(dir: Direction, pool: seq<real>, a: real, b: real)
    requires pool != []
    requires NoBetter(dir, b, a)
    ensures Percentile(dir, pool, a) >= Percentile(dir, pool, b)
  {
    CountMonotone(dir, pool, a, b);
    DivideMonotone(CountNoBetter(dir, pool, a) as real, CountNoBetter(dir, pool, b) as real, |pool| as real);
  }

  lemma DivideMonotone(x: real, y: real, n: real)
    requires y <= x && n > 0.0
    ensures y / n <= x / n
  {
    assert x / n - y / n == (x - y) / n;
  }

  lemma {:induction false} CountAppend(dir: Direction, p: seq<real>, q: seq<real>, v: real)
    ensures CountNoBetter(dir, p + q, v) == CountNoBetter(dir, p, v) + CountNoBetter(dir, q, v)
  {
    if p == [] {
      assert p + q == q;
    } else {
      assert (p + q)[1..] == p[1..] + q;
      CountAppend(dir, p[1..], q, v);
    }
  }

  /** The count depends only on the pool as a multiset, not on the order it was collected in. */
  lemma {:induction false} CountPermutation(dir: Direction, p: seq<real>, q: seq<real>, v: real)
    requires multiset(p) == multiset(q)
    ensures CountNoBetter(dir, p, v) == CountNoBetter(dir, q, v)
    decreases |p|
  {
    if p == [] {
      assert |q| == |multiset(q)| == 0;
    } else {
      var x := p[0];
      var j := MatchHead(p, q);
      var rest := q[..j] + q[j + 1..];
      CountPermutation(dir, p[1..], rest, v);
      CountRemove(dir, q, j, v);
      assert CountNoBetter(dir, p, v) == (if NoBetter(dir, x, v) then 1 else 0) + CountNoBetter(dir, p[1..], v);
    }
  }

  lemma CountRemove(dir: Direction, q: seq<real>, j: nat, v: real)
    requires j < |q|
    ensures CountNoBetter(dir, q, v)
         == CountNoBetter(dir, q[..j] + q[j + 1..], v) + (if NoBetter(dir, q[j], v) then 1 else 0)
  {
    assert q == q[..j] + [q[j]] + q[j + 1..];
    CountAppend(dir, q[..j] + [q[j]], q[j + 1..], v);
    CountAppend(dir, q[..j], [q[j]], v);
    CountAppend(dir, q[..j], q[j + 1..], v);
  }

  /** Mapping the pool and the value through a strictly increasing function keeps the count. */
  lemma {:induction false} CountApply(dir: Direction, f: real -> real, pool: seq<real>, v: real)
    requires StrictlyIncreasing(f)
    ensures CountNoBetter(dir, Apply(f, pool), f(v)) == CountNoBetter(dir, pool, v)
  {
    if pool != [] {
      var x := pool[0];
      assert NoBetter(dir, f(x), f(v)) <==> NoBetter(dir, x, v) by {
        if x < v { assert f(x) < f(v); }
        else if v < x { assert f(v) < f(x); }
      }
      assert Apply(f, pool)[1..] == Apply(f, pool[1..]);
      CountApply(dir, f, pool[1..], v);
    }
  }

  /** A value no entry beats has percentile 1; in particular the sole entry of a singleton pool. */
  lemma {:induction false} PercentileOfBest(dir: Direction, pool: seq<real>, v: real)
    requires pool != []
    requires forall i :: 0 <= i < |pool| ==> NoBetter(dir, pool[i], v)
    ensures Percentile(dir, pool, v) == 1.0
  {
    CountOfBest(dir, pool, v);
  }

  lemma {:induction false} CountOfBest(dir: Direction, pool: seq<real>, v: real)
    requires forall i :: 0 <= i < |pool| ==> NoBetter(dir, pool[i], v)
    ensures CountNoBetter(dir, pool, v) == |pool|
  {
    if pool != [] {
      assert NoBetter(dir, pool[0], v);
      CountOfBest(dir, pool[1..], v);
    }
  }

  /** A value taken from the pool itself counts at least itself, so its percentile is positive. */
  lemma {:induction false} PercentileOfMember(dir: Direction, pool: seq<real>, v: real)
    requires v in pool
    ensures Percentile(dir, pool, v) >= 1.0 / |pool| as real
  {
    CountOfMember(dir, pool, v);
    DivideMonotone(CountNoBetter(dir, pool, v) as real, 1.0, |pool| as real);
  }

  lemma {:induction false} CountOfMember(dir: Direction, pool: seq<real>, v: real)
    requires v in pool
    ensures CountNoBetter(dir, pool, v) >= 1
  {
    if pool[0] != v {
      assert v in pool[1..];
      CountOfMember(dir, pool[1..], v);
    }
  }
}
