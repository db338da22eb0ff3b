/** Applying a function to every element of a sequence. */
module Sequences {

  function MapSeq<A, B>(f: A -> B, s: seq<A>): seq<B>
  {
    seq(|s|, i requires 0 <= i < |s| => f(s[i]))
  }

  /** Mapping distributes over concatenation. */
  lemma MapSeqConcat<A, B>(f: A -> B, a: seq<A>, b: seq<A>)
    ensures MapSeq(f, a + b) == MapSeq(f, a) + MapSeq(f, b)
  {
    var l, r := MapSeq(f, a + b), MapSeq(f, a) + MapSeq(f, b);
    forall i | 0 <= i < |a| + |b|
      ensures l[i] == r[i]
    {
      if i < |a| {
        assert (a + b)[i] == a[i];
      } else {
        assert (a + b)[i] == b[i - |a|];
      }
    }
  }

  /** Mapping a sequence with one element inserted. */
  lemma MapSeqInsert<A, B>(f: A -> B, a: seq<A>, t: A, b: seq<A>)
    ensures MapSeq(f, a + [t] + b) == MapSeq(f, a) + ([f(t)] + MapSeq(f, b))
  {
    MapSeqConcat(f, a + [t], b);
    MapSeqConcat(f, a, [t]);
    assert MapSeq(f, [t]) == [f(t)];
  }
}
