/**
 * The data client of scrapers/morningstar_client.py: the acceptance rule for one
 * API call, the normalisation of the three payloads of one fund (common data,
 * performance, fees) into a FundData record, and the batching loop that fetches
 * a list of fund codes.
 *
 * The network calls themselves are not modelled: one call is an `Attempt` (the
 * response that came back, or the transport error raised), and each fund of a
 * batch has a given `Outcome`.
 */
module Morningstar {
  import opened Wrappers
  import opened Funds

  // ------------------------------------------------------------------ one API call

  /** The `_meta.response_status` the provider reports on success. */
  const SuccessStatus: string := "200011"

  /** A decoded response body: `_meta.response_status` and `data`. */
  datatype Envelope<T> = Envelope(responseStatus: Option<string>, data: Option<T>)

  /**
   * One request: a response with its HTTP status and its body (None when the body
   * is not valid JSON), or an exception raised before any response (timeout,
   * connection failure).
   */
  datatype Attempt<T> = Responded(httpStatus: int, body: Option<Envelope<T>>) | TransportError

  /**
   * `_fetch_api`: the payload only for a 2xx response whose body decodes and whose
   * status is "200011"; every HTTP error (404 and 429 included), undecodable body
   * and raised exception gives None.
   */
  function FetchApi<T>(a: Attempt<T>): (r: Option<T>)
    ensures r.Some? ==> a.Responded? && 200 <= a.httpStatus < 300 && a.body.Some?
                        && a.body.value.responseStatus == Some(SuccessStatus) && r == a.body.value.data
    ensures a.TransportError? || (a.Responded? && (a.httpStatus >= 300 || a.body.None?)) ==> r.None?
    ensures (a.Responded? && 200 <= a.httpStatus < 300 && a.body.Some?
             && a.body.value.responseStatus == Some(SuccessStatus)) ==> r == a.body.value.data
  {
    match a
    case TransportError => None
    case Responded(status, body) =>
      if !(200 <= status < 300) then None
      else match body
        case None => None
        case Some(envelope) =>
          if envelope.responseStatus == Some(SuccessStatus) then envelope.data else None
  }

  // ------------------------------------------------------------------ payloads

  /** The common-data payload; an empty object is represented by the call giving None. */
  datatype CommonData = CommonData(
    name: Option<string>, fundName: Option<string>, inceptionDate: Option<string>, fundSize: Option<real>)

  /** The performance payload: benchmark name and the `dayEnd` returns, in percent. */
  datatype Performance = Performance(
    benchmarkName: Option<string>,
    ytd: Option<real>, y3: Option<real>, y5: Option<real>, benchmarkYtd: Option<real>)

  /** The provider's fee fields, in percent (0.15 means 0.15%). */
  datatype FeeFields = FeeFields(
    managementFee: Option<real>, custodianFee: Option<real>, distributionFee: Option<real>,
    tradeCost: Option<real>, otherCost: Option<real>)

  /** The fees payload; `fees` is None when the key is missing, null or an empty object. */
  datatype FeesPayload = FeesPayload(fees: Option<FeeFields>)

  /** The fee profile of a fund, as fractions (0.0015 means 0.15%). */
  datatype FeeProfile = FeeProfile(
    management: real, custody: real, subscription: real, redemption: real,
    salesService: real, transaction: real, other: real, totalAnnual: real)

  // ------------------------------------------------------------------ fees

  /** The profile used when the provider has no fee data. */
  const DefaultFees: FeeProfile := FeeProfile(0.0015, 0.0005, 0.0, 0.0, 0.0, 0.0, 0.0, 0.002)

  /** Python's `x or d` on an optional number: a missing or zero value gives `d`. */
  function Or(x: Option<real>, d: real): (r: real)
    ensures x.Some? && x.value != 0.0 ==> r == x.value
    ensures x.None? || x.value == 0.0 ==> r == d
  {
    if x.Some? && x.value != 0.0 then x.value else d
  }

  /** The total is the sum of all seven components (subscription and redemption included). */
  predicate TotalIsSum(f: FeeProfile) {
    f.totalAnnual == f.management + f.custody + f.subscription + f.redemption
                     + f.salesService + f.transaction + f.other
  }

  predicate NonNegative(o: Option<real>) { o.None? || o.value >= 0.0 }

  predicate ProvidedNonNegative(f: FeeFields) {
    NonNegative(f.managementFee) && NonNegative(f.custodianFee) && NonNegative(f.distributionFee)
    && NonNegative(f.tradeCost) && NonNegative(f.otherCost)
  }

  /**
   * `_extract_fees_data`: the default profile when there is no fee data; otherwise
   * every provided percentage divided by 100, with 0.15 / 0.05 for a missing or zero
   * management / custodian fee, 0 for the other missing ones, subscription and
   * redemption 0, and the total the sum of the components.
   */
  function ExtractFeesData(feesData: Option<FeesPayload>): (r: FeeProfile)
    ensures TotalIsSum(r)
    ensures r.subscription == 0.0 && r.redemption == 0.0
    ensures feesData.None? || feesData.value.fees.None? ==> r == DefaultFees
    ensures feesData.Some? && feesData.value.fees.Some? ==>
      var f := feesData.value.fees.value;
      && r.management * 100.0 == Or(f.managementFee, 0.15)
      && r.custody * 100.0 == Or(f.custodianFee, 0.05)
      && r.salesService * 100.0 == Or(f.distributionFee, 0.0)
      && r.transaction * 100.0 == Or(f.tradeCost, 0.0)
      && r.other * 100.0 == Or(f.otherCost, 0.0)
    ensures (feesData.Some? && feesData.value.fees.Some? ==> ProvidedNonNegative(feesData.value.fees.value))
            ==> r.management > 0.0 && r.custody > 0.0 && r.salesService >= 0.0
                && r.transaction >= 0.0 && r.other >= 0.0 && r.totalAnnual > 0.0
  {
    match feesData
    case None => DefaultFees
    case Some(payload) =>
      match payload.fees
      case None => DefaultFees
      case Some(fees) =>
        var management := Or(fees.managementFee, 0.15) / 100.0;
        var custody := Or(fees.custodianFee, 0.05) / 100.0;
        var salesService := Or(fees.distributionFee, 0.0) / 100.0;
        var transaction := Or(fees.tradeCost, 0.0) / 100.0;
        var other := Or(fees.otherCost, 0.0) / 100.0;
        FeeProfile(management, custody, 0.0, 0.0, salesService, transaction, other,
                   management + custody + salesService + transaction + other)
  }

  // ------------------------------------------------------------------ derived fields

  const ExchangeTraded: string := "场内"
  const OverTheCounter: string := "场外"

  predicate StartsWith(s: string, prefix: string) {
    |prefix| <= |s| && s[..|prefix|] == prefix
  }

  /** The code prefixes of exchange-traded funds: 51/588 (Shanghai), 159 (Shenzhen), 16 (LOF), 15. */
  predicate IsExchangeCode(code: string) {
    StartsWith(code, "51") || StartsWith(code, "588") || StartsWith(code, "159")
    || StartsWith(code, "16") || StartsWith(code, "15")
  }

  /** The fund type, decided by the code alone. */
  function FundTypeOf(code: string): (t: string)
    ensures t == ExchangeTraded <==> IsExchangeCode(code)
    ensures t == OverTheCounter <==> !IsExchangeCode(code)
  {
    if IsExchangeCode(code) then ExchangeTraded else OverTheCounter
  }

  /** "159" adds nothing to "15": the classification reads only the first two or three digits. */
  lemma ExchangeCodeByLeadingDigits(code: string)
    ensures IsExchangeCode(code) <==>
      |code| >= 2 && ((code[0] == '1' && (code[1] == '5' || code[1] == '6'))
                     || (code[0] == '5' && code[1] == '1')
                     || (|code| >= 3 && code[0] == '5' && code[1] == '8' && code[2] == '8'))
  {
    if |code| >= 2 {
      assert StartsWith(code, "15") <==> code[0] == '1' && code[1] == '5';
      assert StartsWith(code, "16") <==> code[0] == '1' && code[1] == '6';
      assert StartsWith(code, "51") <==> code[0] == '5' && code[1] == '1';
      if |code| >= 3 {
        assert StartsWith(code, "588") <==> code[0] == '5' && code[1] == '8' && code[2] == '8';
        assert StartsWith(code, "159") ==> StartsWith(code, "15");
      }
    }
  }

  predicate Truthy(s: Option<string>) { s.Some? && s.value != "" }

  /**
   * The display name: the names mapping's entry when non-empty, else the payload's
   * `name`, else its `fundName`, else "基金" followed by the code. Never empty.
   */
  function DisplayName(names: map<string, string>, code: string, common: CommonData): (name: string)
    ensures name != ""
    ensures code in names && names[code] != "" ==> name == names[code]
    ensures !(code in names && names[code] != "") ==>
      if Truthy(common.name) then name == common.name.value
      else if Truthy(common.fundName) then name == common.fundName.value
      else name == "基金" + code
  {
    if code in names && names[code] != "" then names[code]
    else if Truthy(common.name) then common.name.value
    else if Truthy(common.fundName) then common.fundName.value
    else "基金" + code
  }

  /** Whether the fund beat its benchmark this year, and by how much. */
  datatype Excess = Excess(beats: Option<bool>, amount: Option<real>)

  /**
   * Both present exactly when the YTD return and the benchmark's YTD return are;
   * `beats` is the strict comparison of the unrounded returns, `amount` the rounded
   * difference.
   */
  function ExcessReturn(perf: Performance, round2: real -> real): (e: Excess)
    ensures e.beats.Some? <==> e.amount.Some?
    ensures e.beats.Some? <==> perf.ytd.Some? && perf.benchmarkYtd.Some?
    ensures e.beats.Some? ==>
      e.beats.value == (perf.ytd.value > perf.benchmarkYtd.value)
      && e.amount.value == round2(perf.ytd.value - perf.benchmarkYtd.value)
  {
    if perf.ytd.Some? && perf.benchmarkYtd.Some? then
      Excess(Some(perf.ytd.value > perf.benchmarkYtd.value),
             Some(round2(perf.ytd.value - perf.benchmarkYtd.value)))
    else Excess(None, None)
  }

  ghost predicate Monotone(f: real -> real) {
    forall x, y :: x <= y ==> f(x) <= f(y)
  }

  /**
   * With a monotone rounding that keeps 0 at 0, the flag agrees with the sign of
   * the amount; a difference that rounds to zero can still have `beats` true.
   */
  lemma BeatsAgreesWithAmountSign(perf: Performance, round2: real -> real)
    requires Monotone(round2) && round2(0.0) == 0.0
    requires ExcessReturn(perf, round2).beats.Some?
    ensures ExcessReturn(perf, round2).beats.value ==> ExcessReturn(perf, round2).amount.value >= 0.0
    ensures !ExcessReturn(perf, round2).beats.value ==> ExcessReturn(perf, round2).amount.value <= 0.0
  {
    var d := perf.ytd.value - perf.benchmarkYtd.value;
    if d > 0.0 { assert round2(0.0) <= round2(d); } else { assert round2(d) <= round2(0.0); }
  }

  function RoundOpt(x: Option<real>, round2: real -> real): (r: Option<real>)
    ensures r.Some? <==> x.Some?
  {
    match x
    case Some(v) => Some(round2(v))
    case None => None
  }

  // ------------------------------------------------------------------ one fund

  /**
   * The body of `get_fund_data` after the three calls: None exactly when the
   * common data is missing; missing performance or fees never fail the fund.
   */
  function NormalizeFund(
    code: string, names: map<string, string>,
    common: Option<CommonData>, perf: Option<Performance>, feesData: Option<FeesPayload>,
    round2: real -> real): (r: Option<FundData>)
    ensures r.None? <==> common.None?
    ensures r.Some? ==>
      && r.value.code == code
      && r.value.name == DisplayName(names, code, common.value)
      && r.value.fundType == Some(FundTypeOf(code))
      && r.value.establishDate == Some(common.value.inceptionDate.GetOr(""))
      && r.value.totalAnnualFee.Some?
      && r.value.subscriptionFee == Some(0.0) && r.value.redemptionFee == Some(0.0)
      && r.value.totalAnnualFee.value
         == r.value.managementFee + r.value.custodyFee + r.value.salesServiceFee.GetOr(0.0)
            + r.value.transactionCost.GetOr(0.0) + r.value.otherFees.GetOr(0.0)
      && (r.value.beatsBenchmark.Some? <==> r.value.beatsBenchmarkAmount.Some?)
    ensures r.Some? ==> var fees := ExtractFeesData(feesData);
      && r.value.managementFee == fees.management && r.value.custodyFee == fees.custody
      && r.value.salesServiceFee == Some(fees.salesService) && r.value.transactionCost == Some(fees.transaction)
      && r.value.otherFees == Some(fees.other) && r.value.totalAnnualFee == Some(fees.totalAnnual)
    ensures r.Some? ==> var size := common.value.fundSize;
      r.value.scale == (if size.Some? && size.value != 0.0 then round2(size.value / 100000000.0) else 0.0)
  {
    match common
    case None => None
    case Some(c) =>
      var name := DisplayName(names, code, c);
      var fundType := FundTypeOf(code);
      var establishDate := c.inceptionDate.GetOr("");
      var scale := if c.fundSize.Some? && c.fundSize.value != 0.0 then round2(c.fundSize.value / 100000000.0) else 0.0;
      var benchmark := if perf.Some? then perf.value.benchmarkName.GetOr("") else "";
      var fees := ExtractFeesData(feesData);
      var excess := if perf.Some? then ExcessReturn(perf.value, round2) else Excess(None, None);
      var yearly := if perf.Some? then RoundOpt(perf.value.ytd, round2) else None;
      var threeYear := if perf.Some? then RoundOpt(perf.value.y3, round2) else None;
      var fiveYear := if perf.Some? then RoundOpt(perf.value.y5, round2) else None;
      Some(FundData(
        code, name, fees.management, fees.custody,
        Some(fees.subscription), Some(fees.redemption), Some(fees.salesService),
        Some(fees.transaction), Some(fees.other), Some(fees.totalAnnual),
        scale, yearly, threeYear, fiveYear, Some(establishDate), Some(benchmark),
        excess.beats, excess.amount, Some(fundType)))
  }

  /** Without performance data the record has no returns, no excess return and an empty benchmark. */
  lemma NormalizeWithoutPerformance(
    code: string, names: map<string, string>, common: CommonData, feesData: Option<FeesPayload>,
    round2: real -> real)
    ensures var f := NormalizeFund(code, names, Some(common), None, feesData, round2).value;
      && f.benchmark == Some("")
      && f.yearlyReturn.None? && f.return3Year.None? && f.return5Year.None?
      && f.beatsBenchmark.None? && f.beatsBenchmarkAmount.None?
  {
  }

  /**
   * With performance data the benchmark is its name ("" when absent), each return
   * is present exactly when the payload has it, and the excess return is present
   * exactly when both YTD returns are, with `beats` the strict comparison.
   */
  lemma NormalizeWithPerformance(
    code: string, names: map<string, string>, common: CommonData, perf: Performance,
    feesData: Option<FeesPayload>, round2: real -> real)
    ensures var f := NormalizeFund(code, names, Some(common), Some(perf), feesData, round2).value;
      && f.benchmark == Some(perf.benchmarkName.GetOr(""))
      && f.yearlyReturn == RoundOpt(perf.ytd, round2)
      && f.return3Year == RoundOpt(perf.y3, round2)
      && f.return5Year == RoundOpt(perf.y5, round2)
      && f.beatsBenchmarkAmount == ExcessReturn(perf, round2).amount
      && (f.yearlyReturn.Some? <==> perf.ytd.Some?)
      && (f.return3Year.Some? <==> perf.y3.Some?)
      && (f.return5Year.Some? <==> perf.y5.Some?)
      && (f.beatsBenchmark.Some? <==> perf.ytd.Some? && perf.benchmarkYtd.Some?)
      && (f.beatsBenchmark.Some? ==> f.beatsBenchmark.value == (perf.ytd.value > perf.benchmarkYtd.value))
  {
  }

  /** Without fee data the record carries the default fees: 0.15% management, 0.05% custody, 0.2% in total. */
  lemma NormalizeWithoutFees(
    code: string, names: map<string, string>, common: CommonData, perf: Option<Performance>,
    feesData: Option<FeesPayload>, round2: real -> real)
    requires feesData.None? || feesData.value.fees.None?
    ensures var f := NormalizeFund(code, names, Some(common), perf, feesData, round2).value;
      f.managementFee == 0.0015 && f.custodyFee == 0.0005 && f.totalAnnualFee == Some(0.002)
  {
  }

  // ------------------------------------------------------------------ batches

  /** What fetching one fund of a batch gave: a record, None, or a raised exception. */
  datatype Outcome = Fetched(fund: FundData) | NoData | Raised

  datatype Collection = Collection(funds: seq<FundData>, failed: seq<string>)

  function Min(x: int, y: int): int { if x < y then x else y }

  /** The fetched records, in input order. */
  function Successes(results: seq<Outcome>): (funds: seq<FundData>)
    ensures |funds| <= |results|
  {
    if results == [] then []
    else Successes(results[..|results| - 1])
         + (match results[|results| - 1] case Fetched(f) => [f] case _ => [])
  }

  /** The codes whose fetch raised, in input order. */
  function FailedCodes(codes: seq<string>, results: seq<Outcome>): (failed: seq<string>)
    requires |codes| == |results|
    ensures |failed| <= |codes|
  {
    if codes == [] then []
    else FailedCodes(codes[..|codes| - 1], results[..|results| - 1])
         + (if results[|results| - 1].Raised? then [codes[|codes| - 1]] else [])
  }

  /** One more outcome appends at most one fund, as the loop does. */
  lemma SuccessesSnoc(results: seq<Outcome>, k: nat)
    requires k < |results|
    ensures results[k].Fetched? ==> Successes(results[..k + 1]) == Successes(results[..k]) + [results[k].fund]
    ensures !results[k].Fetched? ==> Successes(results[..k + 1]) == Successes(results[..k])
  {
    assert results[..k + 1][..k] == results[..k];
  }

  /** One more outcome appends at most one failed code, as the loop does. */
  lemma FailedCodesSnoc(codes: seq<string>, results: seq<Outcome>, k: nat)
    requires |codes| == |results| && k < |results|
    ensures results[k].Raised? ==> FailedCodes(codes[..k + 1], results[..k + 1]) == FailedCodes(codes[..k], results[..k]) + [codes[k]]
    ensures !results[k].Raised? ==> FailedCodes(codes[..k + 1], results[..k + 1]) == FailedCodes(codes[..k], results[..k])
  {
    assert results[..k + 1][..k] == results[..k];
    assert codes[..k + 1][..k] == codes[..k];
  }

  function NoDataCount(results: seq<Outcome>): nat {
    if results == [] then 0
    else NoDataCount(results[..|results| - 1]) + (if results[|results| - 1].NoData? then 1 else 0)
  }

  /** The contiguous slices `codes[i : i + size]` for i in range(0, |codes|, size). */
  function BatchesFrom(codes: seq<string>, size: nat, i: nat): (bs: seq<seq<string>>)
    requires size > 0
    ensures bs == [] <==> i >= |codes|
    ensures i < |codes| ==> bs[0] == codes[i..Min(i + size, |codes|)]
    decreases |codes| - i
  {
    if i >= |codes| then [] else [codes[i..Min(i + size, |codes|)]] + BatchesFrom(codes, size, i + size)
  }

  function Batches(codes: seq<string>, size: nat): (bs: seq<seq<string>>)
    requires size > 0
    ensures bs == [] <==> codes == []
    ensures codes != [] ==> bs[0] == codes[..Min(size, |codes|)]
  {
    BatchesFrom(codes, size, 0)
  }

  /**
   * When the first b batches are done and the rest start at offset i, the next
   * batch is the slice `codes[i : i + size]` and the rest after it start at i + size.
   */
  lemma NextBatch(codes: seq<string>, size: nat, i: nat, batches: seq<seq<string>>, b: nat)
    requires size > 0 && i < |codes|
    requires b <= |batches| && batches == batches[..b] + BatchesFrom(codes, size, i)
    ensures b < |batches| && batches[b] == codes[i..Min(i + size, |codes|)]
    ensures batches == batches[..b + 1] + BatchesFrom(codes, size, i + size)
  {
    var rest := BatchesFrom(codes, size, i);
    assert rest == [rest[0]] + BatchesFrom(codes, size, i + size);
    assert batches[..b + 1] == batches[..b] + [rest[0]];
  }

  function Flatten(bs: seq<seq<string>>): seq<string> {
    if bs == [] then [] else bs[0] + Flatten(bs[1..])
  }

  /**
   * Walks one batch `codes[lo:hi]` with its outcomes, in order, appending each
   * fetched fund and each code whose fetch raised.
   */
  method CollectBatch(
    codes: seq<string>, results: seq<Outcome>, lo: nat, hi: nat,
    funds0: seq<FundData>, failed0: seq<string>)
    returns (funds: seq<FundData>, failed: seq<string>)
    requires |codes| == |results| && lo <= hi <= |results|
    requires funds0 == Successes(results[..lo])
    requires failed0 == FailedCodes(codes[..lo], results[..lo])
    ensures funds == Successes(results[..hi])
    ensures failed == FailedCodes(codes[..hi], results[..hi])
  {
    funds, failed := funds0, failed0;
    var batch := codes[lo..hi];
    var batchResults := results[lo..hi];
    for k := lo to hi
      invariant funds == Successes(results[..k])
      invariant failed == FailedCodes(codes[..k], results[..k])
    {
      var j := k - lo;
      assert batchResults[j] == results[k] && batch[j] == codes[k];
      SuccessesSnoc(results, k);
      FailedCodesSnoc(codes, results, k);
      match batchResults[j] {
        case Raised => failed := failed + [batch[j]];
        case Fetched(f) => funds := funds + [f];
        case NoData =>
      }
    }
  }

  class MorningstarClient {
    const maxConcurrent: nat
    const fundNames: map<string, string>

    /** A negative cap cannot be constructed (the semaphore refuses it). */
    constructor (maxConcurrent: nat, fundNames: map<string, string>)
      ensures this.maxConcurrent == maxConcurrent && this.fundNames == fundNames
    {
      this.maxConcurrent := maxConcurrent;
      this.fundNames := fundNames;
    }

    /**
     * `get_fund_data` given the three calls' attempts: a record exactly when the
     * common-data call yields data; failed performance or fees calls leave the
     * returns absent and the fees at their defaults.
     */
    function GetFundData(
      code: string, common: Attempt<CommonData>, perf: Attempt<Performance>, fees: Attempt<FeesPayload>,
      round2: real -> real): (r: Option<FundData>)
      ensures r.None? <==> FetchApi(common).None?
      ensures r.Some? && FetchApi(perf).None? ==>
        && r.value.yearlyReturn.None? && r.value.return3Year.None? && r.value.return5Year.None?
        && r.value.beatsBenchmark.None? && r.value.beatsBenchmarkAmount.None? && r.value.benchmark == Some("")
      ensures r.Some? && FetchApi(fees).None? ==>
        r.value.managementFee == 0.0015 && r.value.custodyFee == 0.0005 && r.value.totalAnnualFee == Some(0.002)
    {
      NormalizeFund(code, fundNames, FetchApi(common), FetchApi(perf), FetchApi(fees), round2)
    }

    /**
     * `batch_get_fund_data`: walks the codes in slices of `maxConcurrent`, appending
     * fetched records to `funds` and the codes whose fetch raised to `failed`, in
     * input order; None results go nowhere. `results[i]` is what fetching
     * `codes[i]` gave. A cap of 0 makes `range` raise, modelled as None.
     */
    method BatchGetFundData(codes: seq<string>, results: seq<Outcome>) returns (r: Option<Collection>)
      requires |results| == |codes|
      ensures r.None? <==> maxConcurrent == 0
      ensures r.Some? ==> r.value.funds == Successes(results)
      ensures r.Some? ==> r.value.failed == FailedCodes(codes, results)
    {
      if maxConcurrent == 0 {
        return None;
      }
      var total := |codes|;
      var funds: seq<FundData> := [];
      var failed: seq<string> := [];
      var batchSize := maxConcurrent;
      var i := 0;
      // b counts the batches done: the loop walks exactly Batches(codes, batchSize)
      ghost var b := 0;
      ghost var batches := Batches(codes, batchSize);
      while i < total
        invariant 0 <= i
        invariant b <= |batches| && batches == batches[..b] + BatchesFrom(codes, batchSize, i)
        invariant funds == Successes(results[..Min(i, total)])
        invariant failed == FailedCodes(codes[..Min(i, total)], results[..Min(i, total)])
        decreases total - i
      {
        var hi := Min(i + batchSize, total);
        NextBatch(codes, batchSize, i, batches, b);
        funds, failed := CollectBatch(codes, results, i, hi, funds, failed);
        i := i + batchSize;
        b := b + 1;
        assert Min(i, total) == hi;
      }
      assert BatchesFrom(codes, batchSize, i) == [];
      assert results[..total] == results && codes[..total] == codes;
      r := Some(Collection(funds, failed));
    }
  }
}
