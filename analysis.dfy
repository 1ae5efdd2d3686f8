/**
 * The ranking step of main.py's `analyze_sector`: every fetched fund is scored
 * against the whole batch, the scored funds are sorted by score, highest first,
 * keeping the fetch order among equal scores, and the first twenty become the
 * rows of the ranking table, each with its fee split into explicit and implicit
 * parts.
 */
module SectorAnalysis {
  import opened Wrappers
  import opened Sequences
  import opened Funds
  import opened Morningstar

  /** One entry of `scored_funds`: the fund, its composite score and its per-factor breakdown. */
  datatype ScoredFund = ScoredFund(fund: FundData, score: real, breakdown: map<string, real>)

  /** The scored entry of `f` within the cohort. */
  function Scored(f: FundData, cohort: seq<FundData>, env: Env): ScoredFund {
    ScoredFund(f, Composite(f, cohort, env), Breakdown(f, cohort, env))
  }

  /** Every fund of `funds` scored within `cohort`, in order. */
  function ScoreAll(funds: seq<FundData>, cohort: seq<FundData>, env: Env): seq<ScoredFund> {
    seq(|funds|, i requires 0 <= i < |funds| => Scored(funds[i], cohort, env))
  }

  // ------------------------------------------------------------------ the order

  predicate SortedByScoreDesc(s: seq<ScoredFund>) {
    forall k, l :: 0 <= k < l < |s| ==> s[k].score >= s[l].score
  }

  /** The entries of `s` whose score is `v`, in order. */
  function WithScore(s: seq<ScoredFund>, v: real): seq<ScoredFund> {
    if s == [] then [] else (if s[0].score == v then [s[0]] else []) + WithScore(s[1..], v)
  }

  /** Stability: for every score, the entries with that score appear in the same order in both. */
  ghost predicate SameTieOrder(s: seq<ScoredFund>, t: seq<ScoredFund>) {
    forall v :: WithScore(s, v) == WithScore(t, v)
  }

  lemma {:induction false} WithScoreAppend(s: seq<ScoredFund>, t: seq<ScoredFund>, v: real)
    ensures WithScore(s + t, v) == WithScore(s, v) + WithScore(t, v)
  {
    if s == [] {
      assert s + t == t;
    } else {
      var head := if s[0].score == v then [s[0]] else [];
      assert (s + t)[0] == s[0] && (s + t)[1..] == s[1..] + t;
      assert WithScore(s + t, v) == head + WithScore(s[1..] + t, v);
      WithScoreAppend(s[1..], t, v);
      ConcatAssoc(head, WithScore(s[1..], v), WithScore(t, v));
    }
  }

  lemma SameTieOrderTransitive(r: seq<ScoredFund>, s: seq<ScoredFund>, t: seq<ScoredFund>)
    requires SameTieOrder(r, s) && SameTieOrder(s, t)
    ensures SameTieOrder(r, t)
  {
    forall v
      ensures WithScore(r, v) == WithScore(t, v)
    {
      assert WithScore(r, v) == WithScore(s, v);
    }
  }

  /** Two entries of different scores fall in different tie groups, so their order does not matter. */
  lemma WithScorePair(x: ScoredFund, y: ScoredFund, v: real)
    requires x.score != y.score
    ensures WithScore([x, y], v) == WithScore([y, x], v)
  {
    assert [x, y][1..] == [y] && [y, x][1..] == [x];
    assert [x][1..] == [] && [y][1..] == [];
  }

  /** Exchanging two adjacent entries with different scores keeps every tie group's order. */
  lemma SwapKeepsTieOrder(s: seq<ScoredFund>, j: int)
    requires 0 < j < |s| && s[j - 1].score != s[j].score
    ensures SameTieOrder(s[j - 1 := s[j]][j := s[j - 1]], s)
  {
    var t := s[j - 1 := s[j]][j := s[j - 1]];
    var x, y, front, back := s[j - 1], s[j], s[..j - 1], s[j + 1..];
    assert s == (front + [x, y]) + back;
    assert t == (front + [y, x]) + back;
    forall v
      ensures WithScore(t, v) == WithScore(s, v)
    {
      WithScoreAppend(front + [x, y], back, v);
      WithScoreAppend(front, [x, y], v);
      WithScoreAppend(front + [y, x], back, v);
      WithScoreAppend(front, [y, x], v);
      WithScorePair(x, y, v);
    }
  }

  /**
   * The state of one insertion step: the entry being inserted sits at `j`, the
   * rest of `s[..i + 1]` is sorted, everything after `j` scores strictly lower,
   * and the neighbours of `j` are in order.
   */
  predicate Inserting(s: seq<ScoredFund>, i: int, j: int)
    requires 0 <= j <= i < |s|
  {
    && (forall k, l :: 0 <= k < l <= i && k != j && l != j ==> s[k].score >= s[l].score)
    && (forall l :: j < l <= i ==> s[j].score > s[l].score)
    && (0 < j < i ==> s[j - 1].score >= s[j + 1].score)
  }

  lemma InsertingStart(s: seq<ScoredFund>, i: int)
    requires 0 < i < |s| && SortedByScoreDesc(s[..i])
    ensures Inserting(s, i, i)
  {
    forall k, l | 0 <= k < l < i
      ensures s[k].score >= s[l].score
    {
      assert s[k] == s[..i][k] && s[l] == s[..i][l];
    }
  }

  /** Exchanging the inserted entry with a lower-scored predecessor moves it one place forward. */
  lemma InsertingSwap(s: seq<ScoredFund>, i: int, j: int, o: seq<ScoredFund>)
    requires 0 < j <= i < |s| && Inserting(s, i, j) && s[j - 1].score < s[j].score
    requires multiset(s) == multiset(o) && SameTieOrder(s, o)
    ensures Inserting(s[j - 1 := s[j]][j := s[j - 1]], i, j - 1)
    ensures multiset(s[j - 1 := s[j]][j := s[j - 1]]) == multiset(o)
    ensures SameTieOrder(s[j - 1 := s[j]][j := s[j - 1]], o)
  {
    var t := s[j - 1 := s[j]][j := s[j - 1]];
    InsertingSwapOrder(s, i, j);
    SwapKeepsTieOrder(s, j);
    SameTieOrderTransitive(t, s, o);
  }

  lemma InsertingSwapOrder(s: seq<ScoredFund>, i: int, j: int)
    requires 0 < j <= i < |s| && Inserting(s, i, j) && s[j - 1].score < s[j].score
    ensures Inserting(s[j - 1 := s[j]][j := s[j - 1]], i, j - 1)
  {
    var t := s[j - 1 := s[j]][j := s[j - 1]];
    forall k, l | 0 <= k < l <= i && k != j - 1 && l != j - 1
      ensures t[k].score >= t[l].score
    {
      if l == j {
        assert t[l] == s[j - 1];
        if k < j - 1 {
          assert s[k].score >= s[j - 1].score;
        }
      } else if k == j {
        assert t[k] == s[j - 1] && j < l;
        if j < i { assert s[j - 1].score >= s[j + 1].score; }
        assert s[j - 1].score >= s[l].score;
      } else {
        assert t[k] == s[k] && t[l] == s[l];
      }
    }
    forall l | j - 1 < l <= i
      ensures t[j - 1].score > t[l].score
    {
      if l == j {
      } else {
        assert t[l] == s[l];
      }
    }
  }

  lemma InsertingDone(s: seq<ScoredFund>, i: int, j: int)
    requires 0 <= j <= i < |s| && Inserting(s, i, j)
    requires j == 0 || s[j - 1].score >= s[j].score
    ensures SortedByScoreDesc(s[..i + 1])
  {
    forall k, l | 0 <= k < l <= i
      ensures s[k].score >= s[l].score
    {
      if k == j {
      } else if l == j {
        assert s[k].score >= s[j - 1].score;
      }
    }
  }

  /**
   * Moves `a[i]` towards the front past the entries of strictly lower score, so
   * that a sorted prefix `a[..i]` becomes a sorted prefix `a[..i + 1]`.
   */
  method InsertDown(a: array<ScoredFund>, i: int)
    requires 0 < i < a.Length && SortedByScoreDesc(a[..i])
    modifies a
    ensures SortedByScoreDesc(a[..i + 1])
    ensures multiset(a[..]) == multiset(old(a[..]))
    ensures SameTieOrder(a[..], old(a[..]))
    ensures a[i + 1..] == old(a[i + 1..])
  {
    InsertingStart(a[..], i);
    var j := i;
    while j > 0 && a[j - 1].score < a[j].score
      invariant 0 <= j <= i
      invariant Inserting(a[..], i, j)
      invariant multiset(a[..]) == multiset(old(a[..]))
      invariant SameTieOrder(a[..], old(a[..]))
      invariant a[i + 1..] == old(a[i + 1..])
      decreases j
    {
      ghost var before := a[..];
      InsertingSwap(before, i, j, old(a[..]));
      a[j - 1], a[j] := a[j], a[j - 1];
      assert a[..] == before[j - 1 := before[j]][j := before[j - 1]];
      j := j - 1;
    }
    InsertingDone(a[..], i, j);
  }

  /**
   * `scored_funds.sort(key=score, reverse=True)`: a stable sort by score, highest
   * first, done here as an insertion sort by adjacent exchanges that never passes
   * an entry over one of equal score.
   */
  method SortByScoreDesc(a: array<ScoredFund>)
    modifies a
    ensures SortedByScoreDesc(a[..])
    ensures multiset(a[..]) == multiset(old(a[..]))
    ensures SameTieOrder(a[..], old(a[..]))
  {
    if a.Length == 0 {
      return;
    }
    for i := 1 to a.Length
      invariant SortedByScoreDesc(a[..i])
      invariant multiset(a[..]) == multiset(old(a[..]))
      invariant SameTieOrder(a[..], old(a[..]))
    {
      ghost var before := a[..];
      InsertDown(a, i);
      SameTieOrderTransitive(a[..], before, old(a[..]));
    }
    assert a[..a.Length] == a[..];
  }

  // ------------------------------------------------------------------ scoring and ranking

  /** The loop of `analyze_sector` that scores every fund against the whole list. */
  method ScoreBatch(funds: seq<FundData>, env: Env) returns (scored: seq<ScoredFund>)
    ensures scored == ScoreAll(funds, funds, env)
  {
    ghost var all := ScoreAll(funds, funds, env);
    scored := [];
    for i := 0 to |funds|
      invariant scored == all[..i]
    {
      var total, breakdown := ScoreFund(funds[i], Some(funds), env);
      assert ScoredFund(funds[i], total, breakdown) == all[i];
      TakeSnoc(all, i);
      scored := scored + [ScoredFund(funds[i], total, breakdown)];
    }
    assert all[..|funds|] == all;
  }

  /**
   * Scores every fund against the whole list (`score_fund(fund, all_funds=funds)`)
   * and sorts the scored entries by score, highest first, equal scores in list order.
   */
  method ScoreAndRank(funds: seq<FundData>, env: Env) returns (ranked: seq<ScoredFund>)
    ensures |ranked| == |funds|
    ensures SortedByScoreDesc(ranked)
    ensures multiset(ranked) == multiset(ScoreAll(funds, funds, env))
    ensures SameTieOrder(ranked, ScoreAll(funds, funds, env))
  {
    var scored := ScoreBatch(funds, env);
    var a := new ScoredFund[|scored|](k requires 0 <= k < |scored| => scored[k]);
    assert a[..] == scored;
    SortByScoreDesc(a);
    ranked := a[..];
    assert |ranked| == |multiset(ranked)| == |multiset(scored)| == |scored|;
  }

  // ------------------------------------------------------------------ the table

  /** The number of funds listed in the ranking table. */
  const TableSize: nat := 20

  /** The explicit fees: management, custody, subscription and sales-service (missing counts as 0). */
  function ExplicitFee(f: FundData): (r: real)
    ensures f.subscriptionFee.None? && f.salesServiceFee.None? ==> r == f.managementFee + f.custodyFee
    ensures (f.managementFee >= 0.0 && f.custodyFee >= 0.0
             && f.subscriptionFee.GetOr(0.0) >= 0.0 && f.salesServiceFee.GetOr(0.0) >= 0.0) ==> r >= 0.0
  {
    f.managementFee + f.custodyFee + f.subscriptionFee.GetOr(0.0) + f.salesServiceFee.GetOr(0.0)
  }

  /** The implicit fees: transaction costs and other costs (missing counts as 0). */
  function ImplicitFee(f: FundData): (r: real)
    ensures f.transactionCost.None? && f.otherFees.None? ==> r == 0.0
    ensures f.transactionCost.GetOr(0.0) >= 0.0 && f.otherFees.GetOr(0.0) >= 0.0 ==> r >= 0.0
  {
    f.transactionCost.GetOr(0.0) + f.otherFees.GetOr(0.0)
  }

  /** One table row: rank from 1, the scored entry and the fee split shown in the fee column. */
  datatype Row = Row(rank: nat, entry: ScoredFund, explicitFee: real, implicitFee: real)

  /** The entries the table lists: the first twenty, or all when there are fewer. */
  function TopEntries(ranked: seq<ScoredFund>): (top: seq<ScoredFund>)
    ensures |top| == Min(TableSize, |ranked|)
    ensures top <= ranked
  {
    ranked[..Min(TableSize, |ranked|)]
  }

  /** `enumerate(scored_funds[:20], 1)`: one row per listed entry, ranked from 1. */
  method TableRows(ranked: seq<ScoredFund>) returns (rows: seq<Row>)
    ensures |rows| == |TopEntries(ranked)|
    ensures forall k :: 0 <= k < |rows| ==>
      rows[k] == Row(k + 1, TopEntries(ranked)[k], ExplicitFee(ranked[k].fund), ImplicitFee(ranked[k].fund))
  {
    var top := TopEntries(ranked);
    rows := [];
    for k := 0 to |top|
      invariant |rows| == k
      invariant forall m :: 0 <= m < k ==>
        rows[m] == Row(m + 1, top[m], ExplicitFee(ranked[m].fund), ImplicitFee(ranked[m].fund))
    {
      var item := top[k];
      rows := rows + [Row(k + 1, item, ExplicitFee(item.fund), ImplicitFee(item.fund))];
    }
  }

  // ------------------------------------------------------------------ the pipeline

  /** How `analyze_sector` ends: one of its two early stops, or a ranking. */
  datatype Analysis = NoCodesFound | NoFundData | Report(ranked: seq<ScoredFund>, rows: seq<Row>)

  /** The concurrency cap `analyze_sector` gives the client. */
  const SectorConcurrency: nat := 10

  /**
   * `analyze_sector` up to the ranking table: stop when the search found no codes,
   * fetch the codes in batches of ten, stop when no fund came back, otherwise score,
   * rank and tabulate. `results[i]` is what fetching `codes[i]` gave.
   */
  method AnalyzeSector(codes: seq<string>, names: map<string, string>, results: seq<Outcome>, env: Env)
    returns (r: Analysis)
    requires |results| == |codes|
    ensures r.NoCodesFound? <==> codes == []
    ensures r.NoFundData? <==> codes != [] && Successes(results) == []
    ensures r.Report? ==>
      var funds := Successes(results);
      && |r.ranked| == |funds|
      && SortedByScoreDesc(r.ranked)
      && multiset(r.ranked) == multiset(ScoreAll(funds, funds, env))
      && SameTieOrder(r.ranked, ScoreAll(funds, funds, env))
      && |r.rows| == Min(TableSize, |funds|)
      && forall k :: 0 <= k < |r.rows| ==> r.rows[k].rank == k + 1 && r.rows[k].entry == r.ranked[k]
  {
    if codes == [] {
      return NoCodesFound;
    }
    var client := new MorningstarClient(SectorConcurrency, names);
    var collected := client.BatchGetFundData(codes, results);
    var funds := collected.value.funds;
    if funds == [] {
      return NoFundData;
    }
    var ranked := ScoreAndRank(funds, env);
    var rows := TableRows(ranked);
    return Report(ranked, rows);
  }
}
