/**
 * Properties of the client: how the codes are cut into batches, and how the
 * outcomes of a batch run are accounted for.
 */
module ClientLemmas {
  import opened Morningstar

  // ------------------------------------------------------------------ batches

  /** The batches, laid end to end, are exactly the codes from offset `i` on. */
  lemma {:induction false} FlattenBatchesFrom(codes: seq<string>, size: nat, i: nat)
    requires size > 0 && i <= |codes|
    ensures Flatten(BatchesFrom(codes, size, i)) == codes[i..]
    decreases |codes| - i
  {
    if i < |codes| {
      var hi := Min(i + size, |codes|);
      var rest := BatchesFrom(codes, size, i + size);
      if i + size <= |codes| {
        FlattenBatchesFrom(codes, size, i + size);
        assert Flatten(rest) == codes[i + size..];
      } else {
        assert rest == [];
      }
      assert BatchesFrom(codes, size, i) == [codes[i..hi]] + rest;
      assert BatchesFrom(codes, size, i)[1..] == rest;
      assert codes[i..] == codes[i..hi] + codes[hi..];
    }
  }

  /** No code is skipped, repeated or reordered by the batching. */
  lemma FlattenBatches(codes: seq<string>, size: nat)
    requires size > 0
    ensures Flatten(Batches(codes, size)) == codes
  {
    FlattenBatchesFrom(codes, size, 0);
  }

  /** Every batch is non-empty and holds at most `size` codes; all but the last hold exactly `size`. */
  lemma {:induction false} BatchSizesFrom(codes: seq<string>, size: nat, i: nat)
    requires size > 0
    ensures forall k :: 0 <= k < |BatchesFrom(codes, size, i)| ==> 0 < |BatchesFrom(codes, size, i)[k]| <= size
    ensures forall k :: 0 <= k < |BatchesFrom(codes, size, i)| - 1 ==> |BatchesFrom(codes, size, i)[k]| == size
    decreases |codes| - i
  {
    if i < |codes| {
      BatchSizesFrom(codes, size, i + size);
      var bs := BatchesFrom(codes, size, i);
      assert bs[1..] == BatchesFrom(codes, size, i + size);
      if |bs| > 1 {
        assert i + size < |codes|;
      }
      forall k | 1 <= k < |bs|
        ensures bs[k] == BatchesFrom(codes, size, i + size)[k - 1]
      {
      }
    }
  }

  /** The number of batches is the least count whose capacity covers the remaining codes. */
  lemma {:induction false} BatchCountFrom(codes: seq<string>, size: nat, i: nat)
    requires size > 0
    ensures |BatchesFrom(codes, size, i)| * size >= |codes| - i
    ensures |BatchesFrom(codes, size, i)| == 0 || (|BatchesFrom(codes, size, i)| - 1) * size < |codes| - i
    decreases |codes| - i
  {
    if i < |codes| {
      BatchCountFrom(codes, size, i + size);
      var c' := |BatchesFrom(codes, size, i + size)|;
      assert |BatchesFrom(codes, size, i)| == c' + 1;
      assert (c' + 1) * size == c' * size + size;
      if c' > 0 {
        assert (c' - 1) * size == c' * size - size;
      }
    }
  }

  lemma MulLess(a: int, b: int, size: int)
    requires size > 0 && a * size < b * size
    ensures a < b
  {
  }

  /** A count c with (c - 1) * size < n <= c * size is the ceiling division (n + size - 1) // size. */
  lemma CeilingDivision(n: nat, size: nat, c: nat)
    requires size > 0
    requires c * size >= n && (c == 0 || (c - 1) * size < n)
    ensures c == (n + size - 1) / size
  {
    var q := (n + size - 1) / size;
    var r := (n + size - 1) % size;
    assert n + size - 1 == q * size + r && 0 <= r < size;
    assert (c + 1) * size == c * size + size;
    MulLess(q, c + 1, size);
    if c > 0 {
      assert c * size == (c - 1) * size + size;
      assert (q + 1) * size == q * size + size;
      MulLess(c, q + 1, size);
    } else {
      assert n == 0;
    }
  }

  /** The batch count is `(total + batch_size - 1) // batch_size`, the progress total the source logs. */
  lemma BatchCount(codes: seq<string>, size: nat)
    requires size > 0
    ensures |Batches(codes, size)| == (|codes| + size - 1) / size
  {
    BatchCountFrom(codes, size, 0);
    CeilingDivision(|codes|, size, |Batches(codes, size)|);
  }

  // ------------------------------------------------------------------ outcomes

  /** Every code lands in exactly one of: the fetched records, the failed codes, or neither (no data). */
  lemma {:induction false} OutcomeAccounting(codes: seq<string>, results: seq<Outcome>)
    requires |codes| == |results|
    ensures |Successes(results)| + |FailedCodes(codes, results)| + NoDataCount(results) == |codes|
  {
    if codes != [] {
      OutcomeAccounting(codes[..|codes| - 1], results[..|results| - 1]);
    }
  }

  /** A failed code is a code whose own fetch raised. */
  lemma {:induction false} FailedCodesRaised(codes: seq<string>, results: seq<Outcome>, c: string)
    requires |codes| == |results|
    requires c in FailedCodes(codes, results)
    ensures exists i :: 0 <= i < |codes| && codes[i] == c && results[i].Raised?
  {
    var n := |codes|;
    if c in FailedCodes(codes[..n - 1], results[..n - 1]) {
      FailedCodesRaised(codes[..n - 1], results[..n - 1], c);
      var i :| 0 <= i < n - 1 && codes[..n - 1][i] == c && results[..n - 1][i].Raised?;
      assert codes[i] == c && results[i].Raised?;
    } else {
      assert codes[n - 1] == c && results[n - 1].Raised?;
    }
  }

  /**
   * Nothing is deduplicated: when every fetch yields a record, there are as many
   * records as codes, in the codes' order, so a repeated code gives a repeated record.
   */
  lemma {:induction false} NoDeduplication(results: seq<Outcome>)
    requires forall i :: 0 <= i < |results| ==> results[i].Fetched?
    ensures |Successes(results)| == |results|
    ensures forall i :: 0 <= i < |results| ==> Successes(results)[i] == results[i].fund
  {
    if results != [] {
      NoDeduplication(results[..|results| - 1]);
    }
  }
}
