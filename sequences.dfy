/** Small facts about sequences, stated once for the modules that need them. */
module Sequences {

  /** Concatenation is associative. */
  lemma ConcatAssoc<T>(a: seq<T>, b: seq<T>, c: seq<T>)
    ensures (a + b) + c == a + (b + c)
  {
  }

  /** A prefix one longer is the prefix followed by the next element. */
  lemma TakeSnoc<T>(s: seq<T>, i: int)
    requires 0 <= i < |s|
    ensures s[..i + 1] == s[..i] + [s[i]]
  {
  }

  /** Removing the element at `j` removes one occurrence of it from the multiset. */
  lemma RemoveOne<T>(q: seq<T>, j: nat)
    requires j < |q|
    ensures multiset(q[..j] + q[j + 1..]) == multiset(q) - multiset{q[j]}
  {
    assert q == q[..j] + [q[j]] + q[j + 1..];
  }

  /** An element of the multiset of a sequence occurs at some index of it. */
  lemma IndexOf<T>(q: seq<T>, x: T) returns (j: nat)
    requires x in multiset(q)
    ensures j < |q| && q[j] == x
  {
    assert x in q;
    j :| 0 <= j < |q| && q[j] == x;
  }

  /**
   * When two sequences have the same multiset, the head of the first occurs in the
   * second, and removing both leaves equal multisets.
   */
  lemma MatchHead<T>(p: seq<T>, q: seq<T>) returns (j: nat)
    requires p != [] && multiset(p) == multiset(q)
    ensures j < |q| && q[j] == p[0]
    ensures multiset(p[1..]) == multiset(q[..j] + q[j + 1..])
  {
    assert p[0] in multiset(q);
    j := IndexOf(q, p[0]);
    RemoveOne(q, j);
    assert p == [p[0]] + p[1..];
    assert multiset(p) == multiset{p[0]} + multiset(p[1..]);
  }
}
