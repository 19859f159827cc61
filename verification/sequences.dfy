/**
 * Generic facts about sequences. Stated over a type parameter so that the
 * solver does not unfold the string elements of the server's queues while
 * proving them.
 */
module Sequences {

  lemma AppendAssociates<T>(a: seq<T>, b: seq<T>, c: seq<T>)
    ensures (a + b) + c == a + (b + c)
  {
  }

  lemma ConsSlices<T>(q: seq<T>, k: nat)
    requires 1 <= k <= |q|
    ensures [q[0]] + q[1..][..k - 1] == q[..k]
    ensures q[1..][k - 1..] == q[k..]
  {
  }

  lemma SplitTwice<T>(q: seq<T>, k1: nat, k2: nat)
    requires k1 + k2 <= |q|
    ensures q[k1..][..k2] == q[k1..k1 + k2]
    ensures q[k1..][k2..] == q[k1 + k2..]
    ensures q[..k1] + q[k1..k1 + k2] == q[..k1 + k2]
    ensures q == q[..k1 + k2] + q[k1 + k2..]
  {
  }

  lemma MultisetOfCons<T>(s: seq<T>)
    requires s != []
    ensures multiset(s) == multiset{s[0]} + multiset(s[1..])
  {
    assert s == [s[0]] + s[1..];
  }

  /** Putting the same front on both sides keeps a prefix a prefix. */
  lemma PrefixExtends<T>(front: seq<T>, a: seq<T>, b: seq<T>)
    requires a <= b
    ensures front + a <= front + b
  {
    assert front + b == (front + a) + b[|a|..];
  }
}
