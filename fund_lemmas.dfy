/**
 * Properties of the scoring engine in module Funds: monotonicity, neutral
 * defaults, the singleton cohort, pool membership, independence from cohort
 * order, and the long-term factor's reduction to raw 5-year returns.
 */
module FundScoringLemmas {
  import opened Wrappers
  import opened Sequences
  import opened Percentiles
  import opened Funds

  /** Every band table is non-decreasing in the percentile (band starts only jump up). */
  lemma BandMonotone(factor: Factor, p: real, q: real)
    requires 0.0 <= p <= q <= 1.0
    ensures Band(factor, p) <= Band(factor, q)
  {
  }

  /** `a` is no worse than `b` on a factor, stated on the source's own fields; both have the value. */
  predicate NoWorseOn(factor: Factor, a: FundData, b: FundData, env: Env) {
    match factor
    case Fees =>
      a.totalAnnualFee.Some? && b.totalAnnualFee.Some? && a.totalAnnualFee.value <= b.totalAnnualFee.value
    case Scale =>
      Abs(a.scale - IdealScale) <= Abs(b.scale - IdealScale)
    case ShortTerm =>
      a.yearlyReturn.Some? && b.yearlyReturn.Some? && a.yearlyReturn.value >= b.yearlyReturn.value
    case LongTerm =>
      a.return5Year.Some? && b.return5Year.Some? && a.return5Year.value >= b.return5Year.value
    case Benchmark =>
      a.beatsBenchmarkAmount.Some? && b.beatsBenchmarkAmount.Some?
      && a.beatsBenchmarkAmount.value >= b.beatsBenchmarkAmount.value
    case Stability =>
      EstablishedDay(a, env).Some? && EstablishedDay(b, env).Some?
      && EstablishedDay(a, env).value <= EstablishedDay(b, env).value
  }

  /**
   * Lower fee, smaller distance from the ideal scale, higher YTD / 5-year / excess
   * return or an earlier establish date never scores lower; because every
   * comparison is inclusive, equal values score equally.
   */
  lemma FactorScoreMonotone(factor: Factor, a: FundData, b: FundData, cohort: seq<FundData>, env: Env)
    requires factor == LongTerm ==> StrictlyIncreasing(env.annualize)
    requires NoWorseOn(factor, a, b, env)
    ensures FactorScore(factor, a, cohort, env) >= FactorScore(factor, b, cohort, env)
    ensures NoWorseOn(factor, b, a, env) ==>
      FactorScore(factor, a, cohort, env) == FactorScore(factor, b, cohort, env)
  {
    ValueNoWorse(factor, a, b, env);
    var pool := Pool(factor, cohort, env);
    if pool != [] {
      var va, vb := Value(factor, a, env).value, Value(factor, b, env).value;
      PercentileMonotone(Dir(factor), pool, va, vb);
      BandMonotone(factor, Percentile(Dir(factor), pool, vb), Percentile(Dir(factor), pool, va));
      if NoWorseOn(factor, b, a, env) {
        ValueNoWorse(factor, b, a, env);
        PercentileMonotone(Dir(factor), pool, vb, va);
        BandMonotone(factor, Percentile(Dir(factor), pool, va), Percentile(Dir(factor), pool, vb));
      }
    }
  }

  lemma ValueNoWorse(factor: Factor, a: FundData, b: FundData, env: Env)
    requires factor == LongTerm ==> StrictlyIncreasing(env.annualize)
    requires NoWorseOn(factor, a, b, env)
    ensures Value(factor, a, env).Some? && Value(factor, b, env).Some?
    ensures NoBetter(Dir(factor), Value(factor, b, env).value, Value(factor, a, env).value)
  {
    if factor == LongTerm {
      var ra, rb := a.return5Year.value, b.return5Year.value;
      if rb < ra { assert env.annualize(rb) < env.annualize(ra); }
    }
  }

  /** A missing own value or an empty pool yields the neutral default (8, 8, 10, 12, 5, 8). */
  lemma MissingValueIsNeutral(factor: Factor, fund: FundData, cohort: seq<FundData>, env: Env)
    requires Value(factor, fund, env).None? || Pool(factor, cohort, env) == []
    ensures FactorScore(factor, fund, cohort, env) == Neutral(factor)
    ensures factor == Benchmark ==> FactorScore(factor, fund, cohort, env) == 5.0
  {
  }

  /** Alone in its cohort, a fund with the value is at percentile 1 and earns the full cap. */
  lemma SingletonCohortScoresCap(factor: Factor, fund: FundData, env: Env)
    requires Value(factor, fund, env).Some?
    ensures Pool(factor, [fund], env) == [Value(factor, fund, env).value]
    ensures Percentile(Dir(factor), Pool(factor, [fund], env), Value(factor, fund, env).value) == 1.0
    ensures FactorScore(factor, fund, [fund], env) == Cap(factor)
  {
    var v := Value(factor, fund, env).value;
    assert [fund][..0] == [];
    PercentileOfBest(Dir(factor), [v], v);
  }

  /** The score of a factor when the fund is scored on its own. */
  function AloneScore(factor: Factor, fund: FundData, env: Env): real {
    if Value(factor, fund, env).Some? then Cap(factor) else Neutral(factor)
  }

  /** Scored against itself alone, a factor earns its cap with data and its neutral default without. */
  lemma AloneFactorScore(factor: Factor, fund: FundData, env: Env)
    ensures FactorScore(factor, fund, [fund], env) == AloneScore(factor, fund, env)
  {
    if Value(factor, fund, env).Some? {
      SingletonCohortScoresCap(factor, fund, env);
    } else {
      MissingValueIsNeutral(factor, fund, [fund], env);
    }
  }

  /**
   * With no cohort given, `score_fund` scores the fund against itself: every
   * dimension with data earns its cap, the others their neutral default.
   */
  lemma FallbackCohortComposite(fund: FundData, env: Env)
    ensures Composite(fund, Cohort(fund, None), env)
         == AloneScore(Fees, fund, env) + AloneScore(Scale, fund, env)
          + AloneScore(ShortTerm, fund, env) + AloneScore(LongTerm, fund, env)
          + AloneScore(Benchmark, fund, env) + AloneScore(Stability, fund, env)
  {
    AloneFactorScore(Fees, fund, env);
    AloneFactorScore(Scale, fund, env);
    AloneFactorScore(ShortTerm, fund, env);
    AloneFactorScore(LongTerm, fund, env);
    AloneFactorScore(Benchmark, fund, env);
    AloneFactorScore(Stability, fund, env);
  }

  /** So a fund with all six values, scored on its own, scores exactly 100. */
  lemma FullFundAloneScoresHundred(fund: FundData, env: Env)
    requires forall factor :: Value(factor, fund, env).Some?
    ensures Composite(fund, Cohort(fund, None), env) == 100.0
  {
    FallbackCohortComposite(fund, env);
    CapsTotalHundred();
    forall factor ensures AloneScore(factor, fund, env) == Cap(factor) {
      assert Value(factor, fund, env).Some?;
    }
  }

  /** The six caps add up to the full score of 100. */
  lemma CapsTotalHundred()
    ensures Cap(Fees) + Cap(Scale) + Cap(ShortTerm) + Cap(LongTerm) + Cap(Benchmark) + Cap(Stability) == 100.0
  {
  }

  /** Adding one fund at the end of the cohort adds its entry at the end of the pool. */
  lemma PoolSnoc(factor: Factor, c: seq<FundData>, f: FundData, env: Env)
    ensures Pool(factor, c + [f], env) == Pool(factor, c, env) + Entry(factor, f, env)
  {
    assert (c + [f])[..|c|] == c;
  }

  lemma {:induction false} PoolAppend(factor: Factor, c1: seq<FundData>, c2: seq<FundData>, env: Env)
    ensures Pool(factor, c1 + c2, env) == Pool(factor, c1, env) + Pool(factor, c2, env)
    decreases |c2|
  {
    if c2 == [] {
      assert c1 + c2 == c1;
    } else {
      var init, last := c2[..|c2| - 1], c2[|c2| - 1];
      assert c2 == init + [last];
      assert c1 + c2 == (c1 + init) + [last];
      PoolSnoc(factor, c1 + init, last, env);
      PoolSnoc(factor, init, last, env);
      PoolAppend(factor, c1, init, env);
      ConcatAssoc(Pool(factor, c1, env), Pool(factor, init, env), Entry(factor, last, env));
    }
  }

  /**
   * A fund without the factor's value (no total fee, YTD, 5-year return or excess
   * return; an empty or unparseable establish date) is left out of the pool
   * wherever it stands in the cohort.
   */
  lemma MissingValueLeftOutOfPool(factor: Factor, c1: seq<FundData>, f: FundData, c2: seq<FundData>, env: Env)
    requires Value(factor, f, env).None?
    ensures Pool(factor, c1 + [f] + c2, env) == Pool(factor, c1 + c2, env)
  {
    PoolAppend(factor, c1 + [f], c2, env);
    PoolSnoc(factor, c1, f, env);
    PoolAppend(factor, c1, c2, env);
  }

  /** The stability factor ignores an empty or unparseable date: out of the pool, and 8.0 for the fund. */
  lemma StabilityIgnoresUnparsedDate(fund: FundData, c1: seq<FundData>, c2: seq<FundData>, env: Env)
    requires fund.establishDate.None? || fund.establishDate == Some("")
          || env.parseDate(fund.establishDate.value).None?
    ensures Pool(Stability, c1 + [fund] + c2, env) == Pool(Stability, c1 + c2, env)
    ensures FactorScore(Stability, fund, c1 + [fund] + c2, env) == 8.0
  {
    MissingValueLeftOutOfPool(Stability, c1, fund, c2, env);
  }

  /** The long-term factor ignores funds without a 5-year return: out of the pool, and 12.0 for the fund. */
  lemma LongTermIgnoresMissingFiveYear(fund: FundData, c1: seq<FundData>, c2: seq<FundData>, env: Env)
    requires fund.return5Year.None?
    ensures Pool(LongTerm, c1 + [fund] + c2, env) == Pool(LongTerm, c1 + c2, env)
    ensures FactorScore(LongTerm, fund, c1 + [fund] + c2, env) == 12.0
  {
    MissingValueLeftOutOfPool(LongTerm, c1, fund, c2, env);
  }

  /** The raw 5-year returns of the cohort, skipping funds without one. */
  function FiveYearPool(cohort: seq<FundData>): (pool: seq<real>)
    ensures |pool| <= |cohort|
  {
    if cohort == [] then []
    else FiveYearPool(cohort[..|cohort| - 1])
         + (match cohort[|cohort| - 1].return5Year case Some(r) => [r] case None => [])
  }

  lemma {:induction false} LongTermPoolIsAnnualized(cohort: seq<FundData>, env: Env)
    ensures Pool(LongTerm, cohort, env) == Apply(env.annualize, FiveYearPool(cohort))
  {
    if cohort != [] {
      var init := cohort[..|cohort| - 1];
      LongTermPoolIsAnnualized(init, env);
      var last := cohort[|cohort| - 1];
      ApplyAppend(env.annualize, FiveYearPool(init),
        match last.return5Year case Some(r) => [r] case None => []);
    }
  }

  lemma ApplyAppend(f: real -> real, s: seq<real>, t: seq<real>)
    ensures Apply(f, s + t) == Apply(f, s) + Apply(f, t)
  {
  }

  /**
   * Because annualisation is strictly increasing, the long-term percentile is the
   * percentile of the raw 5-year return among the raw 5-year returns; the 3-year
   * return plays no part.
   */
  lemma LongTermRawPercentile(fund: FundData, cohort: seq<FundData>, env: Env)
    requires StrictlyIncreasing(env.annualize)
    requires fund.return5Year.Some? && FiveYearPool(cohort) != []
    ensures FactorScore(LongTerm, fund, cohort, env)
         == LongTermBand(Percentile(HigherIsBetter, FiveYearPool(cohort), fund.return5Year.value))
  {
    LongTermPoolIsAnnualized(cohort, env);
    CountApply(HigherIsBetter, env.annualize, FiveYearPool(cohort), fund.return5Year.value);
  }

  /** The pool, as a multiset, depends only on the cohort as a multiset. */
  lemma {:induction false} PoolPermutation(factor: Factor, c1: seq<FundData>, c2: seq<FundData>, env: Env)
    requires multiset(c1) == multiset(c2)
    ensures multiset(Pool(factor, c1, env)) == multiset(Pool(factor, c2, env))
    decreases |c1|
  {
    if c1 == [] {
      assert |c2| == |multiset(c2)| == 0;
    } else {
      var n := |c1|;
      var x := c1[n - 1];
      var init := c1[..n - 1];
      assert x in multiset(c2);
      var j :| 0 <= j < |c2| && c2[j] == x;
      var rest := c2[..j] + c2[j + 1..];
      assert multiset(init) == multiset(rest) by {
        RemoveOne(c2, j);
        RemoveOne(c1, n - 1);
        assert c1[..n - 1] + c1[n..] == init;
      }
      PoolPermutation(factor, init, rest, env);
      assert Pool(factor, c1, env) == Pool(factor, init, env) + Entry(factor, x, env);
      PoolRemove(factor, c2, j, env);
    }
  }

  lemma PoolRemove(factor: Factor, c: seq<FundData>, j: nat, env: Env)
    requires j < |c|
    ensures multiset(Pool(factor, c, env))
         == multiset(Pool(factor, c[..j] + c[j + 1..], env)) + multiset(Entry(factor, c[j], env))
  {
    var x := c[j];
    assert c == c[..j] + [x] + c[j + 1..];
    PoolAppend(factor, c[..j] + [x], c[j + 1..], env);
    PoolAppend(factor, c[..j], [x], env);
    PoolAppend(factor, c[..j], c[j + 1..], env);
    assert [x][..0] == [];
    assert Pool(factor, [x], env) == Entry(factor, x, env);
  }

  /**
   * Scoring is a function of the cohort as a multiset: reordering the fetched
   * list changes no factor score and no composite.
   */
  lemma CompositeOrderIndependent(fund: FundData, c1: seq<FundData>, c2: seq<FundData>, env: Env)
    requires multiset(c1) == multiset(c2)
    ensures forall factor :: FactorScore(factor, fund, c1, env) == FactorScore(factor, fund, c2, env)
    ensures Composite(fund, c1, env) == Composite(fund, c2, env)
  {
    forall factor: Factor
      ensures FactorScore(factor, fund, c1, env) == FactorScore(factor, fund, c2, env)
    {
      var p1, p2 := Pool(factor, c1, env), Pool(factor, c2, env);
      PoolPermutation(factor, c1, c2, env);
      assert |p1| == |multiset(p1)| == |multiset(p2)| == |p2|;
      if Value(factor, fund, env).Some? && p1 != [] {
        CountPermutation(Dir(factor), p1, p2, Value(factor, fund, env).value);
      }
    }
  }
}
