# FundInsight sector ranking — a Dafny model

FundInsight ranks the funds of a market sector. It takes the fund codes found for
a sector and fetches three payloads per fund from the Morningstar API: common
data, performance and fees. It normalises them into one `FundData` record per
fund. It then scores every fund against the others of the same batch, on six
factors worth 100 points in total, and writes the twenty best into a ranking
table.

The model has these parts:

- **Percentiles** (`percentiles.dfy`): the percentile rank every factor uses.
  It counts the pool entries no better than the fund's own value (ties
  included) and divides by the pool size.
- **Funds** (`fund.dfy`): the fund record, and the six relative factor scores
  of `models/fund.py`:
  - fees (15 points), lower is better;
  - distance of the scale from 26 (100 million CNY units) (15 points), lower is better;
  - year-to-date return (20 points);
  - annualised five-year return (25 points);
  - excess return over the benchmark (10 points);
  - age since inception (15 points).

  Each factor has its own band table, neutral score and way of building the
  pool. `ScoreFund` accumulates the breakdown map and the total the way
  `score_fund` does. It is proved equal to the specification functions
  `Breakdown` and `Composite`.
- **FundScoringLemmas** (`fund_lemmas.dfy`), proved about the scoring:
  - a better value never scores lower;
  - missing data scores the neutral value and is left out of the pools;
  - a fund scored alone earns the cap on every factor it has data for and the neutral score on the rest, so exactly 100 with all six values (`FullFundAloneScoresHundred`);
  - the five-year percentile can be read on raw returns;
  - the score does not depend on the order of the batch.
- **Morningstar** (`morningstar.dfy`): the client of
  `scrapers/morningstar_client.py`. It covers:
  - the acceptance rule for one API call;
  - the fee extraction with its defaults;
  - the display name, fund type and excess return;
  - the assembly of one `FundData`;
  - the batching loop of `batch_get_fund_data`.
- **ClientLemmas** (`morningstar_lemmas.dfy`), proved about the batching:
  - batches cover the codes in order;
  - the batch count is the ceiling division the source logs;
  - every code is accounted for exactly once;
  - nothing is deduplicated.
- **SectorAnalysis** (`analysis.dfy`): the ranking step of `main.py`. It covers:
  - scoring every fund against the batch;
  - the stable sort by score, highest first, an in-place insertion sort on an array;
  - the top-20 table rows with the explicit/implicit fee split;
  - the two early stops of `analyze_sector`.
- **RankingLemmas** (`analysis_lemmas.dfy`):
  - the stable order is unique, so the model's sort yields exactly what
    Python's `list.sort(key=…, reverse=True)` yields;
  - the head and the table hold the best scores;
  - the fee split adds up to the total.

The model is built from the values the environment supplies; nothing here
performs I/O:

- **Current day:** `Env.today` is a day number.
- **Date parsing:** `Env.parseDate` plays `datetime.strptime(…, "%Y-%m-%d")`, with None for an unparsable string.
- **Annualisation:** `Env.annualize` plays `((1 + r/100) ** (1/5) - 1) * 100`.
- **Rounding:** `round2` plays Python's `round(x, 2)`.
- **Fetching:** the outcome of each HTTP request is given as an `Attempt`, and the outcome of each fund's fetch as an `Outcome`.

### What the code does not do

- It does not deduplicate: a code listed twice is fetched twice and both records are kept (`NoDeduplication`).
- It breaks no ties: funds with equal scores stay in fetch order (`StableOrderIsUnique`).
- It does not classify failures: a fetch that raises is logged and its code listed as failed; any other failure just drops the fund (`OutcomeAccounting`).

## Model

| member | source | states |
|---|---|---|
| `Percentiles.CountNoBetter` | models/fund.py:359 | the number of pool entries no better than the value is at most the pool size |
| `Percentiles.Percentile` | models/fund.py:359 | the percentile rank of a non-empty pool lies in [0, 1] |
| `Percentiles.CountMonotone` | models/fund.py:427 | a better value has at least as many pool entries no better than it |
| `Percentiles.PercentileMonotone` | models/fund.py:427 | a better value never has a lower percentile rank |
| `Percentiles.CountAppend` | models/fund.py:297 | the count over two concatenated pools is the sum of the counts |
| `Percentiles.CountPermutation` | models/fund.py:297 | the count depends only on the pool's multiset, not its order |
| `Percentiles.CountApply` | models/fund.py:471-475 | mapping pool and value through a strictly increasing function keeps the count |
| `Percentiles.PercentileOfBest` | models/fund.py:359 | a value no pool entry beats has percentile 1 |
| `Percentiles.PercentileOfMember` | models/fund.py:525 | a value that is itself in the pool has percentile at least 1/size |
| `Funds.Key` | models/fund.py:103-130 | each factor reports under one of the six breakdown keys of `score_fund` |
| `Funds.Cap` | models/fund.py:80-86 | each factor is worth between 10 and 25 points (15, 15, 20, 25, 10, 15) |
| `Funds.Neutral` | models/fund.py:355-356 | the fallback for a missing value or an empty pool (8, 8, 10, 12, 5, 8) lies strictly between 0 and the factor's cap |
| `Funds.EstablishedDay` | models/fund.py:516-520 | an establish date counts exactly when it is non-empty and parses as "%Y-%m-%d" |
| `Funds.Age` | models/fund.py:520-521 | the age exists exactly when the date counts, is (today - date) days / 365.25, and is non-negative exactly when the date is not in the future |
| `Funds.Value` | models/fund.py:353 | the compared value: the total fee, the distance of the scale from 26 (always present, 0 only at 26, lines 394-395), the YTD return, the annualised five-year return (present exactly with the raw one, lines 458-462), the excess amount (lines 288-291) and the age (lines 504-509) |
| `Funds.KeysDistinct` | models/fund.py:103-130 | the six breakdown keys are pairwise distinct, so the breakdown has six entries |
| `Funds.Pool` | models/fund.py:353 | a pool has at most one entry per fund of the cohort |
| `Funds.FeeBand` | models/fund.py:361-371 | fee percentile bands 90/70/30/10% map to 13-15, 11-12, 9-10, 6-8 and 0-5 points |
| `Funds.ScaleBand` | models/fund.py:400-406 | scale percentile bands 70/30% map to 12-15, 9-11 and 0-8 points |
| `Funds.ShortTermBand` | models/fund.py:429-439 | YTD percentile bands map to 18-20, 15-17, 12-14, 8-11 and 0-7 points |
| `Funds.LongTermBand` | models/fund.py:477-487 | five-year percentile bands map to 22-25, 18-21, 14-17, 10-13 and 0-9 points |
| `Funds.BenchmarkBand` | models/fund.py:299-309 | excess-return percentile bands map to 9-10, 7-8, 5-6, 2-4 and 0-1 points |
| `Funds.StabilityBand` | models/fund.py:527-537 | age percentile bands map to 12-15, 10-11, 8-9, 5-7 and 0-4 points |
| `Funds.Band` | models/fund.py:361-371 | every factor's band lies between 0 and the factor's cap and gives the full cap at percentile 1 |
| `Funds.FactorScore` | models/fund.py:341-539 | each relative factor score lies between 0 and its cap (15/15/20/25/10/15) |
| `Funds.Cohort` | models/fund.py:98-100 | without a batch the fund is scored against itself alone |
| `Funds.Breakdown` | models/fund.py:103-130 | the breakdown holds exactly the six factor keys, each mapped to that factor's relative score |
| `Funds.Composite` | models/fund.py:103-132 | the total is the sum of the six breakdown entries and lies in [0, 100] |
| `Funds.CollectPool` | models/fund.py:353 | the loop collects exactly the factor's pool of the cohort |
| `Funds.RelativeScore` | models/fund.py:341-371 | the method computes the factor's relative score within the cohort |
| `Funds.ScoreFund` | models/fund.py:75-132 | the accumulated total and breakdown equal the composite and breakdown of the fund within its cohort; the total is the sum of the six entries and lies in [0, 100] |
| `FundScoringLemmas.BandMonotone` | models/fund.py:361-371 | every band table is non-decreasing in the percentile |
| `FundScoringLemmas.FactorScoreMonotone` | models/fund.py:359 | a fund no worse on a factor's raw field scores at least as high on it, and equally when the two are equally good |
| `FundScoringLemmas.MissingValueIsNeutral` | models/fund.py:293-294 | a fund without the factor's value, or a cohort without any, gets the neutral score (5 points for the benchmark) |
| `FundScoringLemmas.SingletonCohortScoresCap` | models/fund.py:99-100 | scored alone, a fund with the factor's value has percentile 1 and the full cap |
| `FundScoringLemmas.AloneFactorScore` | models/fund.py:99-100 | scored against itself alone, a factor earns its cap when the fund has the value and its neutral score otherwise |
| `FundScoringLemmas.FallbackCohortComposite` | models/fund.py:99-132 | without a batch the total is the sum of the six alone-scores |
| `FundScoringLemmas.FullFundAloneScoresHundred` | models/fund.py:99-132 | without a batch, a fund with all six values scores exactly 100 |
| `FundScoringLemmas.CapsTotalHundred` | models/fund.py:80-86 | the six caps add up to 100 |
| `FundScoringLemmas.PoolAppend` | models/fund.py:421 | the pool of concatenated cohorts is the concatenation of their pools |
| `FundScoringLemmas.MissingValueLeftOutOfPool` | models/fund.py:421 | a fund lacking the factor's value contributes nothing to the pool |
| `FundScoringLemmas.StabilityIgnoresUnparsedDate` | models/fund.py:504-518 | a fund with no or an empty inception date is left out of the age pool and scores 8 |
| `FundScoringLemmas.LongTermIgnoresMissingFiveYear` | models/fund.py:458-469 | a fund without a five-year return is left out of the pool and scores 12 |
| `FundScoringLemmas.LongTermPoolIsAnnualized` | models/fund.py:458-462 | the long-term pool is the annualisation of the raw five-year returns |
| `FundScoringLemmas.LongTermRawPercentile` | models/fund.py:471-487 | with a strictly increasing annualisation, the long-term score equals the band of the percentile of the raw five-year returns |
| `FundScoringLemmas.PoolPermutation` | models/fund.py:353 | reordering the cohort only reorders each pool |
| `FundScoringLemmas.CompositeOrderIndependent` | models/fund.py:75-132 | every factor score and the total are the same for any ordering of the batch |
| `Morningstar.FetchApi` | scrapers/morningstar_client.py:80-105 | a payload only for a 2xx response with status "200011"; HTTP errors (404, 429, others), bad bodies and raised exceptions give None |
| `Morningstar.Or` | scrapers/morningstar_client.py:278 | a missing or zero value falls back to the default |
| `Morningstar.ExtractFeesData` | scrapers/morningstar_client.py:238-313 | default profile (total 0.2%) without fee data; otherwise each percentage divided by 100 with defaults 0.15/0.05/0, subscription and redemption 0, total the sum; non-negative inputs give non-negative fees and a positive total |
| `Morningstar.FundTypeOf` | scrapers/morningstar_client.py:146-154 | exchange-traded exactly when the code starts with 51, 588, 159, 16 or 15, over-the-counter otherwise |
| `Morningstar.ExchangeCodeByLeadingDigits` | scrapers/morningstar_client.py:149-151 | the prefix rule is equivalent to a test of the first two or three digits (159 is subsumed by 15) |
| `Morningstar.DisplayName` | scrapers/morningstar_client.py:139-144 | the names mapping wins, then the payload's name, then fundName, then "基金" + code; never empty |
| `Morningstar.ExcessReturn` | scrapers/morningstar_client.py:187-204 | beats and amount are both present exactly when both YTD returns are; beats compares the unrounded returns, amount is the rounded difference |
| `Morningstar.BeatsAgreesWithAmountSign` | scrapers/morningstar_client.py:190-204 | with a monotone rounding that keeps 0, beating the benchmark gives a non-negative amount and not beating a non-positive one |
| `Morningstar.RoundOpt` | scrapers/morningstar_client.py:195-200 | a return is present after rounding exactly when it was present before |
| `Morningstar.NormalizeFund` | scrapers/morningstar_client.py:130-226 | a record exactly when the common data is present; its code, name, type and establish date follow the derivations; its fees are those of the fee extraction (subscription and redemption 0, the total the sum of its parts); its scale is the rounded size in hundred millions, 0 when the size is missing or 0; and the excess-return flag is present exactly when its amount is |
| `Morningstar.NormalizeWithoutPerformance` | scrapers/morningstar_client.py:162-176 | without performance data the returns, the flag and the amount are absent and the benchmark is empty |
| `Morningstar.NormalizeWithPerformance` | scrapers/morningstar_client.py:162-204 | with performance data the benchmark is its name ("" when absent), each return is the rounded payload value, present exactly when the payload has it, the amount is the rounded excess return, and the flag is present exactly when both YTD returns are, comparing them strictly |
| `Morningstar.NormalizeWithoutFees` | scrapers/morningstar_client.py:165-166 | without fee data the record carries the default fees: 0.15% management, 0.05% custody, 0.2% in total |
| `Morningstar.BatchesFrom` | scrapers/morningstar_client.py:336-337 | the batches from an offset are empty exactly past the end, and the first is the slice `codes[i:i+size]` |
| `Morningstar.Batches` | scrapers/morningstar_client.py:336-337 | there is a batch exactly when there is a code, and the first batch is the first `size` codes |
| `Morningstar.NextBatch` | scrapers/morningstar_client.py:336-337 | after b batches ending at offset i, batch b is `codes[i:i+size]` and the rest start at i + size |
| `Morningstar.Successes` | scrapers/morningstar_client.py:355-356 | at most one record per outcome |
| `Morningstar.FailedCodes` | scrapers/morningstar_client.py:352-353 | at most one failed code per input code |
| `Morningstar.CollectBatch` | scrapers/morningstar_client.py:337-356 | walking one batch in order appends exactly that batch's fetched records and raised codes to what came before |
| `Morningstar.MorningstarClient.constructor` | scrapers/morningstar_client.py:23-37 | the client keeps the concurrency cap and the names mapping it is given |
| `Morningstar.MorningstarClient.GetFundData` | scrapers/morningstar_client.py:111-134 | a record exactly when the common-data call yields data; a failed performance call leaves every return, the excess flag and amount absent and the benchmark empty; a failed fees call gives the default fees 0.15% management, 0.05% custody, 0.2% in total |
| `Morningstar.MorningstarClient.BatchGetFundData` | scrapers/morningstar_client.py:330-356 | the batch loop walks exactly the batches of `Batches` and yields exactly the fetched records and the codes whose fetch raised, in input order; a cap of 0 makes the slicing raise |
| `ClientLemmas.FlattenBatchesFrom` | scrapers/morningstar_client.py:336-337 | the batches from an offset, laid end to end, are the codes from that offset |
| `ClientLemmas.FlattenBatches` | scrapers/morningstar_client.py:336-337 | the batches cover every code once, in order |
| `ClientLemmas.BatchSizesFrom` | scrapers/morningstar_client.py:336-337 | every batch holds between 1 and the cap codes, all but the last exactly the cap |
| `ClientLemmas.BatchCount` | scrapers/morningstar_client.py:339 | the number of batches is (total + size - 1) // size |
| `ClientLemmas.OutcomeAccounting` | scrapers/morningstar_client.py:350-356 | records, failed codes and empty results together number the codes |
| `ClientLemmas.FailedCodesRaised` | scrapers/morningstar_client.py:351-353 | every failed code is a code whose own fetch raised |
| `ClientLemmas.NoDeduplication` | scrapers/morningstar_client.py:354-356 | when every fetch yields a record, the records are one per code in code order, duplicates kept |
| `SectorAnalysis.ScoreBatch` | main.py:241-248 | the loop yields one scored entry per fund, in batch order, each carrying the fund's composite and breakdown within the whole batch |
| `SectorAnalysis.WithScoreAppend` | main.py:251 | the tie group of a concatenation is the concatenation of the tie groups |
| `SectorAnalysis.SwapKeepsTieOrder` | main.py:251 | exchanging adjacent entries of different scores keeps every tie group's order |
| `SectorAnalysis.InsertDown` | main.py:251 | inserting the next entry extends the sorted prefix, keeping contents and tie order and leaving the entries after it in place |
| `SectorAnalysis.SortByScoreDesc` | main.py:251 | the array ends sorted by score, highest first, a permutation of the input that keeps the input order among equal scores |
| `SectorAnalysis.ScoreAndRank` | main.py:241-251 | the ranking has one entry per fund, is sorted by score descending, is a permutation of the scored funds and keeps list order among equal scores |
| `SectorAnalysis.ExplicitFee` | main.py:99 | management plus custody when subscription and sales-service fees are missing; non-negative for non-negative parts |
| `SectorAnalysis.ImplicitFee` | main.py:100 | 0 when transaction costs and other fees are missing; non-negative for non-negative parts |
| `SectorAnalysis.TopEntries` | main.py:90 | the table lists the first min(20, n) ranked entries |
| `SectorAnalysis.TableRows` | main.py:90-100 | row k has rank k + 1, the k-th ranked entry, and its explicit and implicit fees |
| `SectorAnalysis.AnalyzeSector` | main.py:190-251 | stops when no codes were found, stops when no fund data came back, and otherwise reports the sorted, stable, complete ranking of the fetched funds and its first twenty rows |
| `RankingLemmas.StableOrderIsUnique` | main.py:251 | two lists sorted by score descending with the same order inside every tie group are equal |
| `RankingLemmas.RankedEntriesAreScored` | main.py:241-248 | every ranked entry is a batch fund carrying its composite and breakdown within the batch |
| `RankingLemmas.RankedHeadIsBest` | main.py:241-251 | the first ranked entry has the highest composite score of the batch |
| `RankingLemmas.TableHoldsTheBest` | main.py:90 | every listed fund scores at least as high as every fund left off the table |
| `RankingLemmas.FeeSplitCoversTotal` | main.py:99-100 | for a record built by the client, explicit plus implicit fees equal the total annual fee |

## Left out

- Network I/O, `asyncio` concurrency, the semaphore, request delays, the 429 back-off sleep and the HTTP client's lifecycle: each call's result is an input (`Attempt`, `Outcome`).
- Floating point: reals stand for floats. Rounding to two decimals and the fifth-root annualisation are parameters. Annualising a return below -100% (a complex number in Python) is not modelled.
- Logging, console output and the Markdown formatting of the table: only the row contents (rank, entry, fee split) are modelled.
- Exceptions from payload values of the wrong JSON type: payloads are typed. An empty object for the common data or the fees is the same as no payload, since both are falsy in the source.
- Funds.Age: the clock is read once per run (`Env.today`), while the source reads `datetime.now()` anew for each fund.
- Morningstar.NormalizeFund: an `inceptionDate` or `benchmarkName` that is present but null becomes "" instead of None. Scoring treats both as missing.
- Morningstar.MorningstarClient.BatchGetFundData: also returns the failed codes, which the source only logs; the source returns just the records.
- Morningstar.MorningstarClient.constructor: a negative concurrency cap is excluded, since the semaphore refuses it. The request delay and the names file path are not modelled; the names mapping is given already loaded.
- The sector search (`scrapers/csindex.py`), the AI scoring (`ai/`), the configuration (`config.py`) and loading the names JSON file are not part of this model.
- The absolute helpers of `models/fund.py` (`_score_fees`, `_score_scale`, `_score_short_term_performance`, `_score_long_term_performance` and `_score_beats_benchmark` at 135-275, `_score_stability` at 312-340) are not used by `score_fund` and are not modelled.
