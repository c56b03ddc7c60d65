/** Sequences without repeats, lists of lists, and sums over sequences. */
module Sequences {

  predicate Distinct<T(==)>(s: seq<T>) {
    forall i, j :: 0 <= i < j < |s| ==> s[i] != s[j]
  }

  function Concat<T>(chunks: seq<seq<T>>): seq<T> {
    if chunks == [] then [] else Concat(chunks[..|chunks| - 1]) + chunks[|chunks| - 1]
  }

  lemma ConcatGrows<T>(chunks: seq<seq<T>>, chunk: seq<T>)
    ensures Concat(chunks + [chunk]) == Concat(chunks) + chunk
    ensures Concat<T>([]) == []
  {
    assert (chunks + [chunk])[..|chunks|] == chunks;
  }

  function Sum<T>(records: seq<T>, f: T -> real): real {
    if records == [] then 0.0 else Sum(records[..|records| - 1], f) + f(records[|records| - 1])
  }

  lemma SumOne<T>(records: seq<T>, x: T, f: T -> real)
    ensures Sum(records + [x], f) == Sum(records, f) + f(x)
  {
    assert (records + [x])[..|records|] == records;
  }

  lemma {:induction false} SumConcat<T>(a: seq<T>, b: seq<T>, f: T -> real)
    ensures Sum(a + b, f) == Sum(a, f) + Sum(b, f)
  {
    if b == [] {
      assert a + b == a;
    } else {
      assert (a + b)[..|a + b| - 1] == a + b[..|b| - 1];
      SumConcat(a, b[..|b| - 1], f);
    }
  }
}
