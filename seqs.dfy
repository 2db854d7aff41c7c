/**
 * Facts about sequence concatenation, stated over any element type so that
 * the proofs about the log never reason about the strings in it.
 */
module Seqs {

  lemma Between<T>(a: seq<T>, e1: seq<T>, b: seq<T>, c: seq<T>, e2: seq<T>)
    requires e1 == [] && e2 == []
    ensures a + e1 + b + c + e2 == a + (b + c)
  {
  }

  lemma TwoThenThree<T>(a: T, b: T, c: T, d: T, e: T)
    ensures [a, b] + [c, d, e] == [a, b, c, d, e]
  {
  }

  /** Two single appends make one append of both. */
  lemma AppendTwo<T>(l: seq<T>, a: T, b: T)
    ensures l + [a] + [b] == l + [a, b]
  {
  }

  /** Three single appends make one append of all three. */
  lemma AppendThree<T>(l: seq<T>, a: T, b: T, c: T)
    ensures l + [a] + [b] + [c] == l + [a, b, c]
  {
  }

  lemma Grows<T>(a: seq<T>, b: seq<T>, c: seq<T>)
    ensures a <= a + b + c
  {
    assert (a + b + c)[..|a|] == a;
  }

  lemma PrefixTrans<T>(a: seq<T>, b: seq<T>, c: seq<T>)
    requires a <= b && b <= c
    ensures a <= c
  {
    assert c[..|a|] == b[..|a|];
  }

  lemma AppendEmpties<T>(a: seq<T>, x: seq<T>, e1: seq<T>, e2: seq<T>, e3: seq<T>)
    requires e1 == [] && e2 == [] && e3 == []
    ensures a + x + e1 + e2 + e3 == a + x
  {
  }

  lemma DropPrefix<T>(a: seq<T>, x: seq<T>)
    ensures (a + x)[|a|..] == x
  {
  }

  lemma EmptyPrefix<T>(a: seq<T>, b: seq<T>)
    ensures [] + a + b == a + b
  {
  }

  /** Two separated joins regroup to the right. */
  lemma Regroup<T>(x: seq<T>, a: T, y: seq<T>, b: T, z: seq<T>)
    ensures x + [a] + y + [b] + z == x + [a] + (y + [b] + z)
  {
  }

  lemma DropLast<T>(a: seq<T>, e: T)
    ensures (a + [e])[..|a|] == a
  {
  }
}
