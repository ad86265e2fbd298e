/** Small facts about sequences, stated once so that proofs elsewhere can
    cite them instead of re-deriving them in a crowded context. */
module Seqs {

  lemma TakeAll<T>(s: seq<T>)
    ensures s[..|s|] == s
  {
  }

  lemma TakeTake<T>(s: seq<T>, i: nat)
    requires i < |s|
    ensures s[..i + 1][..i] == s[..i]
  {
  }

  lemma TakeOneMore<T>(s: seq<T>, i: nat)
    requires 0 < i <= |s|
    ensures s[..i] == s[..i - 1] + [s[i - 1]]
  {
  }

  lemma Assoc<T>(a: seq<T>, b: seq<T>, c: seq<T>)
    ensures (a + b) + c == a + (b + c)
  {
  }

  lemma ConsTail<T>(a: T, s: seq<T>)
    ensures ([a] + s)[1..] == s
  {
  }

  lemma ConsSnoc<T>(s: seq<T>, a: T)
    requires s != []
    ensures [s[0]] + (s[1..] + [a]) == s + [a]
  {
  }

  lemma SplitAt<T>(s: seq<T>, k: nat)
    requires k < |s|
    ensures s == s[..k] + [s[k]] + s[k + 1..]
  {
  }

  lemma AroundSplit<T>(a: seq<T>, x: T, b: seq<T>)
    ensures (a + [x] + b)[..|a|] == a && (a + [x] + b)[|a| + 1..] == b
  {
  }
}
