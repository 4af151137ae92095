/** Small facts about sequences, named because large proofs go faster with them. */
module Sequences {

  lemma {:induction false} Regroup<T>(x: seq<T>, y: seq<T>, z: seq<T>)
    ensures x + (y + z) == (x + y) + z
  {
  }

  lemma {:induction false} SliceTail<T>(s: seq<T>, k: nat)
    requires k < |s|
    ensures s[1..][..k] == s[1..k + 1] && s[1..][k..] == s[k + 1..]
  {
  }

  predicate Distinct<T(==)>(s: seq<T>) { forall i, j :: 0 <= i < j < |s| ==> s[i] != s[j] }

  lemma {:induction false} DistinctCount<T>(s: seq<T>, x: T)
    requires Distinct(s)
    ensures multiset(s)[x] == if x in s then 1 else 0
  {
    if s != [] {
      var k := |s| - 1;
      DistinctCount(s[..k], x);
      assert s == s[..k] + [s[k]];
      assert multiset(s)[x] == multiset(s[..k])[x] + multiset([s[k]])[x];
    }
  }
}
