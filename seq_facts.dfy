/** Small facts about sequences, proved once, so that proofs about the model's functions
    can use them without reasoning about sequence equality in a larger context. */
module SeqFacts {

  lemma PrefixOfPrefix<T>(s: seq<T>, n: nat, m: nat)
    requires m <= n <= |s|
    ensures s[..n][..m] == s[..m]
  {
  }

  lemma WholePrefix<T>(s: seq<T>)
    ensures s[..|s|] == s
  {
  }

  lemma AppendNothing<T>(a: seq<T>)
    ensures a + [] == a && [] + a == a
  {
  }

  lemma InitOfAppend<T>(a: seq<T>, b: seq<T>)
    requires b != []
    ensures (a + b)[..|a + b| - 1] == a + b[..|b| - 1]
  {
  }

  lemma SliceToEnd<T>(s: seq<T>, a: nat)
    requires a <= |s|
    ensures s[a..|s|] == s[a..]
  {
  }

  lemma SliceOfTail<T>(s: seq<T>, a: nat, b: nat)
    requires 1 <= a <= b <= |s|
    ensures s[a..b] == s[1..][a - 1..b - 1]
  {
    var t := s[1..];
    assert |s[a..b]| == |t[a - 1..b - 1]|;
    forall i | 0 <= i < b - a
      ensures s[a..b][i] == t[a - 1..b - 1][i]
    {
      assert t[a - 1 + i] == s[a + i];
    }
  }

  lemma AppendAssoc<T>(a: seq<T>, b: seq<T>, c: seq<T>)
    ensures (a + b) + c == a + (b + c)
  {
  }

  lemma LastOfAppend<T>(a: seq<T>, b: seq<T>)
    requires b != []
    ensures (a + b)[|a + b| - 1] == b[|b| - 1]
  {
  }
}
