/** Small facts about sequences, stated once for every element type so that the proofs that
    use them do not compare sequences of strings or JSON values element by element. */
module SeqLemmas {
  /** `a` is an initial part of `b`. */
  predicate IsPrefix<T(==)>(a: seq<T>, b: seq<T>) {
    |a| <= |b| && forall i :: 0 <= i < |a| ==> a[i] == b[i]
  }

  lemma PrefixTrans<T>(a: seq<T>, b: seq<T>, c: seq<T>)
    requires IsPrefix(a, b) && IsPrefix(b, c)
    ensures IsPrefix(a, c)
  {
  }

  lemma PrefixOfAppend<T>(a: seq<T>, b: seq<T>)
    ensures IsPrefix(a, a + b)
  {
  }

  lemma SeqAssoc<T>(a: seq<T>, b: seq<T>, c: seq<T>)
    ensures a + (b + c) == a + b + c
  {
  }

  lemma AppendEmpty<T>(a: seq<T>)
    ensures a + [] == a
  {
  }

  lemma PrependEmpty<T>(a: seq<T>)
    ensures [] + a == a
  {
  }

  lemma TakeAll<T>(a: seq<T>)
    ensures a[..|a|] == a
  {
  }

  lemma TakeSnoc<T>(a: seq<T>, r: nat)
    requires r < |a|
    ensures a[..r + 1][..r] == a[..r] && a[..r + 1][r] == a[r]
  {
  }

  lemma TailOfCons<T>(c: T, rest: seq<T>)
    ensures ([c] + rest)[0] == c && ([c] + rest)[1..] == rest
  {
  }

  lemma ConsOfTail<T>(a: seq<T>)
    requires |a| > 0
    ensures [a[0]] + a[1..] == a
  {
  }

  lemma SingletonOf<T>(a: seq<T>)
    requires |a| == 1
    ensures a == [a[0]]
  {
  }

  lemma ConsAppend<T>(a: seq<T>, b: seq<T>)
    requires |a| > 0
    ensures (a + b)[0] == a[0] && (a + b)[1..] == a[1..] + b
  {
  }

  /** A sequence that agrees with `a` on the first `|a|` places is `a` followed by the rest. */
  lemma PrefixSplit<T>(a: seq<T>, b: seq<T>)
    requires |a| <= |b| && forall i :: 0 <= i < |a| ==> a[i] == b[i]
    ensures b == a + b[|a|..]
  {
  }

  lemma AppendAgrees<T>(a: seq<T>, b: seq<T>)
    ensures |a| <= |a + b| && forall i :: 0 <= i < |a| ==> (a + b)[i] == a[i]
  {
  }

  lemma TakeSnocAppend<T>(a: seq<T>, r: nat)
    requires r < |a|
    ensures a[..r + 1] == a[..r] + [a[r]]
  {
  }

  lemma SnocParts<T>(a: seq<T>, x: T)
    ensures (a + [x])[..|a|] == a && (a + [x])[|a|] == x
  {
  }

  lemma PairSnoc<T>(a: seq<T>, x: T, y: T)
    ensures a + [x, y] == a + [x] + [y]
  {
  }

  /** Replacing an element leaves the prefix before it alone and updates the prefix after it. */
  lemma UpdatePrefix<T>(a: seq<T>, i: nat, v: T, n: nat)
    requires i < |a| && n <= |a|
    ensures i >= n ==> a[i := v][..n] == a[..n]
    ensures i < n ==> a[i := v][..n] == a[..n][i := v]
  {
  }
}
