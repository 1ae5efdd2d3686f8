/**
 * Properties of the ranking step: the ranked list is the only order a stable
 * descending sort can produce, its head and the table hold the best scores, every
 * entry carries its fund's composite score within the batch, and the fee column's
 * split adds up to the total annual fee.
 */
module RankingLemmas {
  import opened Wrappers
  import opened Funds
  import opened Morningstar
  import opened SectorAnalysis

  lemma {:induction false} WithScoreNonEmpty(s: seq<ScoredFund>, v: real)
    requires WithScore(s, v) != []
    ensures exists k :: 0 <= k < |s| && s[k].score == v
  {
    if s[0].score != v {
      WithScoreNonEmpty(s[1..], v);
      var k :| 0 <= k < |s[1..]| && s[1..][k].score == v;
      assert s[k + 1].score == v;
    }
  }

  /**
   * A stable sort's result is determined: two lists sorted by score, highest first,
   * with the same order inside every tie group, are equal. So the ranking equals
   * what `list.sort(key=score, reverse=True)` produces.
   */
  lemma {:induction false} StableOrderIsUnique(s: seq<ScoredFund>, t: seq<ScoredFund>)
    requires SortedByScoreDesc(s) && SortedByScoreDesc(t) && SameTieOrder(s, t)
    ensures s == t
    decreases |s|
  {
    if s == [] || t == [] {
      // an entry of the other list would have a non-empty tie group here
      assert s != [] ==> WithScore(s, s[0].score) != [];
      assert t != [] ==> WithScore(t, t[0].score) != [];
    } else {
      HeadsAgree(s, t);
      TailsKeepTieOrder(s, t);
      SortedTail(s);
      SortedTail(t);
      StableOrderIsUnique(s[1..], t[1..]);
      assert s == [s[0]] + s[1..] && t == [t[0]] + t[1..];
    }
  }

  /** Two sorted lists with the same tie groups start with the same entry. */
  lemma HeadsAgree(s: seq<ScoredFund>, t: seq<ScoredFund>)
    requires s != [] && t != []
    requires SortedByScoreDesc(s) && SortedByScoreDesc(t) && SameTieOrder(s, t)
    ensures s[0] == t[0]
  {
    var m, n := s[0].score, t[0].score;
    assert WithScore(s, m) == [s[0]] + WithScore(s[1..], m);
    assert WithScore(t, n) == [t[0]] + WithScore(t[1..], n);
    WithScoreNonEmpty(t, m);
    WithScoreNonEmpty(s, n);
    assert m == n;
    assert s[0] == WithScore(s, m)[0] == WithScore(t, m)[0] == t[0];
  }

  /** Dropping a common head keeps the tie groups equal. */
  lemma TailsKeepTieOrder(s: seq<ScoredFund>, t: seq<ScoredFund>)
    requires s != [] && t != [] && s[0] == t[0] && SameTieOrder(s, t)
    ensures SameTieOrder(s[1..], t[1..])
  {
    forall v
      ensures WithScore(s[1..], v) == WithScore(t[1..], v)
    {
      assert WithScore(s, v) == WithScore(t, v);
      if v == s[0].score {
        assert WithScore(s, v) == [s[0]] + WithScore(s[1..], v);
        assert WithScore(t, v) == [t[0]] + WithScore(t[1..], v);
        assert WithScore(s[1..], v) == WithScore(s, v)[1..];
        assert WithScore(t[1..], v) == WithScore(t, v)[1..];
      } else {
        assert WithScore(s, v) == WithScore(s[1..], v);
        assert WithScore(t, v) == WithScore(t[1..], v);
      }
    }
  }

  lemma SortedTail(s: seq<ScoredFund>)
    requires s != [] && SortedByScoreDesc(s)
    ensures SortedByScoreDesc(s[1..])
  {
    forall k, l | 0 <= k < l < |s| - 1
      ensures s[1..][k].score >= s[1..][l].score
    {
      assert s[1..][k] == s[k + 1] && s[1..][l] == s[l + 1];
    }
  }

  /** Every ranked entry is a fund of the batch with its composite score and breakdown within the batch. */
  lemma RankedEntriesAreScored(funds: seq<FundData>, env: Env, ranked: seq<ScoredFund>)
    requires multiset(ranked) == multiset(ScoreAll(funds, funds, env))
    ensures forall e :: e in ranked ==>
      e.fund in funds && e.score == Composite(e.fund, funds, env) && e.breakdown == Breakdown(e.fund, funds, env)
  {
    forall e | e in ranked
      ensures e.fund in funds && e.score == Composite(e.fund, funds, env) && e.breakdown == Breakdown(e.fund, funds, env)
    {
      assert e in multiset(ranked);
      assert e in ScoreAll(funds, funds, env);
    }
  }

  /** The first ranked entry has the highest composite score of the batch. */
  lemma RankedHeadIsBest(funds: seq<FundData>, env: Env, ranked: seq<ScoredFund>)
    requires funds != [] && SortedByScoreDesc(ranked)
    requires multiset(ranked) == multiset(ScoreAll(funds, funds, env))
    ensures forall f :: f in funds ==> ranked[0].score >= Composite(f, funds, env)
  {
    assert |ranked| == |multiset(ranked)| == |ScoreAll(funds, funds, env)| == |funds|;
    forall f | f in funds
      ensures ranked[0].score >= Composite(f, funds, env)
    {
      var i :| 0 <= i < |funds| && funds[i] == f;
      var e := ScoreAll(funds, funds, env)[i];
      assert e in multiset(ranked);
      var k :| 0 <= k < |ranked| && ranked[k] == e;
    }
  }

  /** Every fund listed in the table scores at least as high as every fund left off it. */
  lemma TableHoldsTheBest(ranked: seq<ScoredFund>)
    requires SortedByScoreDesc(ranked)
    ensures forall k, l :: 0 <= k < |TopEntries(ranked)| <= l < |ranked| ==>
      TopEntries(ranked)[k].score >= ranked[l].score
  {
  }

  /**
   * For a record built by the client, the explicit and implicit parts of the fee
   * column add up to the total annual fee.
   */
  lemma FeeSplitCoversTotal(
    code: string, names: map<string, string>,
    common: Option<CommonData>, perf: Option<Performance>, feesData: Option<FeesPayload>,
    round2: real -> real)
    requires NormalizeFund(code, names, common, perf, feesData, round2).Some?
    ensures var f := NormalizeFund(code, names, common, perf, feesData, round2).value;
      ExplicitFee(f) + ImplicitFee(f) == f.totalAnnualFee.value
  {
  }
}
