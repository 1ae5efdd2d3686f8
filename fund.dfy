/**
 * The fund record and the cohort-relative scoring engine of models/fund.py.
 *
 * Each of six factors collects one value from every fund of the cohort that has
 * it (the pool), takes the inclusive percentile of the scored fund's own value
 * within that pool, and maps the percentile through a fixed band table to points.
 * A fund lacking the value, or an empty pool, gets the factor's neutral default.
 * The composite is the sum of the six factor scores.
 */
module Funds {
  import opened Wrappers
  import opened Percentiles

  /** One fund's attributes for one run (the source's `FundData`). */
  datatype FundData = FundData(
    code: string,
    name: string,
    managementFee: real,
    custodyFee: real,
    subscriptionFee: Option<real>,
    redemptionFee: Option<real>,
    salesServiceFee: Option<real>,
    transactionCost: Option<real>,
    otherFees: Option<real>,
    totalAnnualFee: Option<real>,
    scale: real,
    yearlyReturn: Option<real>,
    return3Year: Option<real>,
    return5Year: Option<real>,
    establishDate: Option<string>,
    benchmark: Option<string>,
    beatsBenchmark: Option<bool>,
    beatsBenchmarkAmount: Option<real>,
    fundType: Option<string>
  )

  /**
   * The float- and clock-dependent helpers the engine relies on, given as parameters:
   * `annualize` turns a 5-year return in percent into the annualised return in percent,
   * `parseDate` is parsing with the format "%Y-%m-%d" (a day number, or None when it
   * fails), and `today` is the day number of the run's current moment.
   */
  datatype Env = Env(annualize: real -> real, parseDate: string -> Option<int>, today: int)

  /** The six scoring dimensions, in the order `score_fund` adds them up. */
  datatype Factor = Fees | Scale | ShortTerm | LongTerm | Benchmark | Stability

  /** Midpoint of the ideal 2-50 (hundred million) scale range. */
  const IdealScale: real := 26.0
  const DaysPerYear: real := 365.25

  /** The six keys of the breakdown map. */
  const BreakdownKeys: set<string> :=
    {"费用合理性", "规模适中性", "短期业绩(YTD)", "长期业绩(5年)", "跑赢基准", "稳定性"}

  /** The key under which the breakdown reports a factor: one of the six breakdown keys. */
  function Key(factor: Factor): (k: string)
    ensures k in BreakdownKeys
  {
    match factor
    case Fees => "费用合理性"
    case Scale => "规模适中性"
    case ShortTerm => "短期业绩(YTD)"
    case LongTerm => "长期业绩(5年)"
    case Benchmark => "跑赢基准"
    case Stability => "稳定性"
  }

  /** No two factors share a key, so the breakdown has six distinct entries. */
  lemma KeysDistinct()
    ensures forall a, b :: Key(a) == Key(b) ==> a == b
    ensures |BreakdownKeys| == 6
  {
    assert Key(Fees)[0] == '费';
  }

  /** The points a factor is worth at most: 15, 15, 20, 25, 10 and 15, in factor order. */
  function Cap(factor: Factor): (r: real)
    ensures 10.0 <= r <= 25.0
  {
    match factor
    case Fees => 15.0
    case Scale => 15.0
    case ShortTerm => 20.0
    case LongTerm => 25.0
    case Benchmark => 10.0
    case Stability => 15.0
  }

  /** The mid-range score given when the fund's value or the whole pool is missing. */
  function Neutral(factor: Factor): (r: real)
    ensures 0.0 < r < Cap(factor)
  {
    match factor
    case Fees => 8.0
    case Scale => 8.0
    case ShortTerm => 10.0
    case LongTerm => 12.0
    case Benchmark => 5.0
    case Stability => 8.0
  }

  /** Fees and distance from the ideal scale: lower is better; returns and age: higher is better. */
  function Dir(factor: Factor): Direction {
    match factor
    case Fees => LowerIsBetter
    case Scale => LowerIsBetter
    case _ => HigherIsBetter
  }

  function Abs(x: real): real { if x < 0.0 then -x else x }

  function Max(x: real, y: real): real { if x < y then y else x }

  /** The day the fund was established, when its date is non-empty and parses. */
  function EstablishedDay(f: FundData, env: Env): (d: Option<int>)
    ensures d.Some? <==> f.establishDate.Some? && f.establishDate.value != ""
                         && env.parseDate(f.establishDate.value).Some?
    ensures d.Some? ==> d == env.parseDate(f.establishDate.value)
  {
    match f.establishDate
    case None => None
    case Some(s) => if s == "" then None else env.parseDate(s)
  }

  /** Age in years, `(now - date).days / 365.25`. */
  function Age(f: FundData, env: Env): (age: Option<real>)
    ensures age.Some? <==> EstablishedDay(f, env).Some?
    ensures age.Some? ==> (age.value >= 0.0 <==> EstablishedDay(f, env).value <= env.today)
    ensures age.Some? ==> age.value * DaysPerYear == (env.today - EstablishedDay(f, env).value) as real
  {
    match EstablishedDay(f, env)
    case None => None
    case Some(d) => Some((env.today - d) as real / DaysPerYear)
  }

  /** The value a factor compares, or None when the fund does not have it. */
  function Value(factor: Factor, f: FundData, env: Env): (v: Option<real>)
    ensures factor == Fees ==> v == f.totalAnnualFee
    ensures factor == Scale ==> v.Some? && v.value >= 0.0 && (v.value == 0.0 <==> f.scale == IdealScale)
    ensures factor == ShortTerm ==> v == f.yearlyReturn
    ensures factor == LongTerm ==> (v.Some? <==> f.return5Year.Some?)
    ensures factor == LongTerm && v.Some? ==> v.value == env.annualize(f.return5Year.value)
    ensures factor == Benchmark ==> v == f.beatsBenchmarkAmount
    ensures factor == Stability ==> v == Age(f, env)
  {
    match factor
    case Fees => f.totalAnnualFee
    case Scale => Some(Abs(f.scale - IdealScale))
    case ShortTerm => f.yearlyReturn
    case LongTerm => (match f.return5Year
                      case Some(r) => Some(env.annualize(r))
                      case None => None)
    case Benchmark => f.beatsBenchmarkAmount
    case Stability => Age(f, env)
  }

  /** What one fund contributes to a factor's pool. */
  function Entry(factor: Factor, f: FundData, env: Env): seq<real> {
    match Value(factor, f, env)
    case Some(v) => [v]
    case None => []
  }

  /** The factor's values over the cohort, in cohort order, skipping funds without one. */
  function Pool(factor: Factor, cohort: seq<FundData>, env: Env): (pool: seq<real>)
    ensures |pool| <= |cohort|
  {
    if cohort == [] then []
    else Pool(factor, cohort[..|cohort| - 1], env) + Entry(factor, cohort[|cohort| - 1], env)
  }

  // ---------------------------------------------------------------- band tables

  function FeeBand(p: real): (r: real)
    requires 0.0 <= p <= 1.0
    ensures p >= 0.9 ==> 13.0 <= r <= 15.0
    ensures 0.7 <= p < 0.9 ==> 11.0 <= r < 12.0
    ensures 0.3 <= p < 0.7 ==> 9.0 <= r < 10.0
    ensures 0.1 <= p < 0.3 ==> 6.0 <= r < 8.0
    ensures p < 0.1 ==> 0.0 <= r < 5.0
  {
    if p >= 0.9 then 13.0 + (p - 0.9) / 0.1 * 2.0
    else if p >= 0.7 then 11.0 + (p - 0.7) / 0.2 * 1.0
    else if p >= 0.3 then 9.0 + (p - 0.3) / 0.4 * 1.0
    else if p >= 0.1 then 6.0 + (p - 0.1) / 0.2 * 2.0
    else Max(0.0, 5.0 * p / 0.1)
  }

  /** Only three bands: the top 30%, the middle 40% and the bottom 30%. */
  function ScaleBand(p: real): (r: real)
    requires 0.0 <= p <= 1.0
    ensures p >= 0.7 ==> 12.0 <= r <= 15.0
    ensures 0.3 <= p < 0.7 ==> 9.0 <= r < 11.0
    ensures p < 0.3 ==> 0.0 <= r < 8.0
  {
    if p >= 0.7 then 12.0 + (p - 0.7) / 0.3 * 3.0
    else if p >= 0.3 then 9.0 + (p - 0.3) / 0.4 * 2.0
    else (p / 0.3) * 8.0
  }

  function ShortTermBand(p: real): (r: real)
    requires 0.0 <= p <= 1.0
    ensures p >= 0.9 ==> 18.0 <= r <= 20.0
    ensures 0.7 <= p < 0.9 ==> 15.0 <= r < 17.0
    ensures 0.3 <= p < 0.7 ==> 12.0 <= r < 14.0
    ensures 0.1 <= p < 0.3 ==> 8.0 <= r < 11.0
    ensures p < 0.1 ==> 0.0 <= r < 7.0
  {
    if p >= 0.9 then 18.0 + (p - 0.9) / 0.1 * 2.0
    else if p >= 0.7 then 15.0 + (p - 0.7) / 0.2 * 2.0
    else if p >= 0.3 then 12.0 + (p - 0.3) / 0.4 * 2.0
    else if p >= 0.1 then 8.0 + (p - 0.1) / 0.2 * 3.0
    else Max(0.0, 7.0 * p / 0.1)
  }

  function LongTermBand(p: real): (r: real)
    requires 0.0 <= p <= 1.0
    ensures p >= 0.9 ==> 22.0 <= r <= 25.0
    ensures 0.7 <= p < 0.9 ==> 18.0 <= r < 21.0
    ensures 0.3 <= p < 0.7 ==> 14.0 <= r < 17.0
    ensures 0.1 <= p < 0.3 ==> 10.0 <= r < 13.0
    ensures p < 0.1 ==> 0.0 <= r < 9.0
  {
    if p >= 0.9 then 22.0 + (p - 0.9) / 0.1 * 3.0
    else if p >= 0.7 then 18.0 + (p - 0.7) / 0.2 * 3.0
    else if p >= 0.3 then 14.0 + (p - 0.3) / 0.4 * 3.0
    else if p >= 0.1 then 10.0 + (p - 0.1) / 0.2 * 3.0
    else Max(0.0, 9.0 * p / 0.1)
  }

  function BenchmarkBand(p: real): (r: real)
    requires 0.0 <= p <= 1.0
    ensures p >= 0.9 ==> 9.0 <= r <= 10.0
    ensures 0.7 <= p < 0.9 ==> 7.0 <= r < 8.0
    ensures 0.3 <= p < 0.7 ==> 5.0 <= r < 6.0
    ensures 0.1 <= p < 0.3 ==> 2.0 <= r < 4.0
    ensures p < 0.1 ==> 0.0 <= r < 1.0
  {
    if p >= 0.9 then 9.0 + (p - 0.9) / 0.1 * 1.0
    else if p >= 0.7 then 7.0 + (p - 0.7) / 0.2 * 1.0
    else if p >= 0.3 then 5.0 + (p - 0.3) / 0.4 * 1.0
    else if p >= 0.1 then 2.0 + (p - 0.1) / 0.2 * 2.0
    else Max(0.0, p / 0.1)
  }

  function StabilityBand(p: real): (r: real)
    requires 0.0 <= p <= 1.0
    ensures p >= 0.9 ==> 12.0 <= r <= 15.0
    ensures 0.7 <= p < 0.9 ==> 10.0 <= r < 11.0
    ensures 0.3 <= p < 0.7 ==> 8.0 <= r < 9.0
    ensures 0.1 <= p < 0.3 ==> 5.0 <= r < 7.0
    ensures p < 0.1 ==> 0.0 <= r < 4.0
  {
    if p >= 0.9 then 12.0 + (p - 0.9) / 0.1 * 3.0
    else if p >= 0.7 then 10.0 + (p - 0.7) / 0.2 * 1.0
    else if p >= 0.3 then 8.0 + (p - 0.3) / 0.4 * 1.0
    else if p >= 0.1 then 5.0 + (p - 0.1) / 0.2 * 2.0
    else Max(0.0, 4.0 * p / 0.1)
  }

  /** The band table of a factor; a percentile of 1 earns the full cap. */
  function Band(factor: Factor, p: real): (r: real)
    requires 0.0 <= p <= 1.0
    ensures 0.0 <= r <= Cap(factor)
    ensures p == 1.0 ==> r == Cap(factor)
  {
    match factor
    case Fees => FeeBand(p)
    case Scale => ScaleBand(p)
    case ShortTerm => ShortTermBand(p)
    case LongTerm => LongTermBand(p)
    case Benchmark => BenchmarkBand(p)
    case Stability => StabilityBand(p)
  }

  // ------------------------------------------------------------------ scoring

  /** One factor's score for `fund` relative to `cohort` (the `_score_*_relative` functions). */
  function FactorScore(factor: Factor, fund: FundData, cohort: seq<FundData>, env: Env): (r: real)
    ensures 0.0 <= r <= Cap(factor)
  {
    var pool := Pool(factor, cohort, env);
    match Value(factor, fund, env)
    case None => Neutral(factor)
    case Some(v) => if pool == [] then Neutral(factor) else Band(factor, Percentile(Dir(factor), pool, v))
  }

  /** The cohort `score_fund` uses: the given list, or the fund alone when none is given. */
  function Cohort(fund: FundData, allFunds: Option<seq<FundData>>): (c: seq<FundData>)
    ensures allFunds.None? ==> c == [fund]
    ensures allFunds.Some? ==> c == allFunds.value
  {
    match allFunds
    case None => [fund]
    case Some(funds) => funds
  }

  /** The score breakdown: exactly six entries, one per factor key. */
  function Breakdown(fund: FundData, cohort: seq<FundData>, env: Env): (m: map<string, real>)
    ensures m.Keys == BreakdownKeys && |m| == 6
    ensures m[Key(Fees)] == FactorScore(Fees, fund, cohort, env)
    ensures m[Key(Scale)] == FactorScore(Scale, fund, cohort, env)
    ensures m[Key(ShortTerm)] == FactorScore(ShortTerm, fund, cohort, env)
    ensures m[Key(LongTerm)] == FactorScore(LongTerm, fund, cohort, env)
    ensures m[Key(Benchmark)] == FactorScore(Benchmark, fund, cohort, env)
    ensures m[Key(Stability)] == FactorScore(Stability, fund, cohort, env)
  {
    KeysDistinct();
    map[][Key(Fees) := FactorScore(Fees, fund, cohort, env)]
       [Key(Scale) := FactorScore(Scale, fund, cohort, env)]
       [Key(ShortTerm) := FactorScore(ShortTerm, fund, cohort, env)]
       [Key(LongTerm) := FactorScore(LongTerm, fund, cohort, env)]
       [Key(Benchmark) := FactorScore(Benchmark, fund, cohort, env)]
       [Key(Stability) := FactorScore(Stability, fund, cohort, env)]
  }

  /** The composite score: the sum of the six breakdown entries, within [0, 100]. */
  function Composite(fund: FundData, cohort: seq<FundData>, env: Env): (r: real)
    ensures 0.0 <= r <= 100.0
    ensures var m := Breakdown(fund, cohort, env);
      r == m[Key(Fees)] + m[Key(Scale)] + m[Key(ShortTerm)]
         + m[Key(LongTerm)] + m[Key(Benchmark)] + m[Key(Stability)]
  {
    FactorScore(Fees, fund, cohort, env) + FactorScore(Scale, fund, cohort, env)
    + FactorScore(ShortTerm, fund, cohort, env) + FactorScore(LongTerm, fund, cohort, env)
    + FactorScore(Benchmark, fund, cohort, env) + FactorScore(Stability, fund, cohort, env)
  }

  // ------------------------------------------------------------------ methods

  /** Collects a factor's pool by walking the cohort, as the source's loops do. */
  method CollectPool(factor: Factor, cohort: seq<FundData>, env: Env) returns (pool: seq<real>)
    ensures pool == Pool(factor, cohort, env)
  {
    pool := [];
    for i := 0 to |cohort|
      invariant pool == Pool(factor, cohort[..i], env)
    {
      assert cohort[..i + 1][..i] == cohort[..i];
      match Value(factor, cohort[i], env) {
        case Some(v) => pool := pool + [v];
        case None =>
      }
    }
    assert cohort[..|cohort|] == cohort;
  }

  /** One `_score_*_relative` call: collect the pool, then place the fund's own value in it. */
  method RelativeScore(factor: Factor, fund: FundData, cohort: seq<FundData>, env: Env)
    returns (score: real)
    ensures score == FactorScore(factor, fund, cohort, env)
    ensures 0.0 <= score <= Cap(factor)
  {
    var pool := CollectPool(factor, cohort, env);
    var own := Value(factor, fund, env);
    if pool == [] || own.None? {
      score := Neutral(factor);
    } else {
      var percentile := Percentile(Dir(factor), pool, own.value);
      score := Band(factor, percentile);
    }
  }

  /** `score_fund`: adds the six factor scores up and records each under its key. */
  method ScoreFund(fund: FundData, allFunds: Option<seq<FundData>>, env: Env)
    returns (total: real, scores: map<string, real>)
    ensures total == Composite(fund, Cohort(fund, allFunds), env)
    ensures scores == Breakdown(fund, Cohort(fund, allFunds), env)
    ensures scores.Keys == BreakdownKeys
    ensures total == scores[Key(Fees)] + scores[Key(Scale)] + scores[Key(ShortTerm)]
                   + scores[Key(LongTerm)] + scores[Key(Benchmark)] + scores[Key(Stability)]
    ensures 0.0 <= total <= 100.0
  {
    scores := map[];
    total := 0.0;
    var cohort := if allFunds.None? then [fund] else allFunds.value;

    var feeScore := RelativeScore(Fees, fund, cohort, env);
    scores := scores[Key(Fees) := feeScore];
    total := total + feeScore;

    var scaleScore := RelativeScore(Scale, fund, cohort, env);
    scores := scores[Key(Scale) := scaleScore];
    total := total + scaleScore;

    var shortTermScore := RelativeScore(ShortTerm, fund, cohort, env);
    scores := scores[Key(ShortTerm) := shortTermScore];
    total := total + shortTermScore;

    var longTermScore := RelativeScore(LongTerm, fund, cohort, env);
    scores := scores[Key(LongTerm) := longTermScore];
    total := total + longTermScore;

    var benchmarkScore := RelativeScore(Benchmark, fund, cohort, env);
    scores := scores[Key(Benchmark) := benchmarkScore];
    total := total + benchmarkScore;

    var stabilityScore := RelativeScore(Stability, fund, cohort, env);
    scores := scores[Key(Stability) := stabilityScore];
    total := total + stabilityScore;
  }
}
