/** Regrouping facts about sequence concatenation, stated once so that the
    proofs about the session log need not rediscover them. */
module Sequences {
  /** Two appends in a row are one append of the concatenation. */
  lemma AppendTwice<T>(log0: seq<T>, log1: seq<T>, log2: seq<T>, a: seq<T>, b: seq<T>)
    requires log1 == log0 + a && log2 == log1 + b
    ensures log2 == log0 + (a + b)
  {
  }

  /** An append of `[first] + a` followed by one of `b + [last]` is one
      append of the whole block. */
  lemma AppendFramed<T>(log0: seq<T>, log1: seq<T>, log2: seq<T>, first: T, a: seq<T>, b: seq<T>, last: T)
    requires log1 == log0 + [first] + a
    requires log2 == log1 + b + [last]
    ensures log2 == log0 + ([first] + a + b + [last])
  {
  }

  /** Occurrences of `x` in four concatenated pieces. */
  lemma CountFramed<T>(first: seq<T>, r1: seq<T>, r2: seq<T>, last: seq<T>, x: T)
    ensures multiset(first + r1 + r2 + last)[x]
         == multiset(first)[x] + multiset(r1)[x] + multiset(r2)[x] + multiset(last)[x]
  {
    assert multiset(first + r1 + r2 + last) == multiset(first) + multiset(r1) + multiset(r2) + multiset(last);
  }
}
