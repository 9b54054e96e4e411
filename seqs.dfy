/** Facts about slicing and concatenation, stated over an arbitrary element
    type so that the routing proofs can use them without reasoning about the
    equality of bindings and handler lists. */
module Seqs {
  lemma Whole<T>(s: seq<T>)
    ensures s[0..] == s && s[..|s|] == s && s[|s|..] == []
    ensures s + [] == s && [] + s == s
  {
  }

  /** Dropping `j` elements leaves `s[j]` in front of the rest. */
  lemma DropFirst<T>(s: seq<T>, j: nat)
    requires j < |s|
    ensures s[j..] != [] && s[j..][0] == s[j] && s[j..][1..] == s[j + 1..]
  {
  }

  /** Taking `k` elements leaves `s[k - 1]` behind the rest. */
  lemma TakeLast<T>(s: seq<T>, k: nat)
    requires 0 < k <= |s|
    ensures s[..k] != [] && s[..k][k - 1] == s[k - 1] && s[..k][..k - 1] == s[..k - 1]
  {
  }

  /** Taking one more element appends it. */
  lemma TakeAppend<T>(s: seq<T>, k: nat)
    requires k < |s|
    ensures s[..k] + [s[k]] == s[..k + 1]
  {
  }

  lemma Regroup<T>(a: seq<T>, x: seq<T>, m: seq<T>, b: seq<T>)
    ensures a + ((x + m) + b) == (a + x) + (m + b)
  {
  }

  lemma Assoc<T>(a: seq<T>, b: seq<T>, c: seq<T>)
    ensures a + (b + c) == (a + b) + c
  {
  }
}
