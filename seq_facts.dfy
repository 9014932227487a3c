/**
 * Two sequence identities, stated once so that the proofs that need them can
 * cite them instead of rediscovering them in a large context.
 */
module SeqFacts {
  lemma WholePrefix<T>(s: seq<T>)
    ensures s[..|s|] == s
  {
  }

  lemma AppendAssoc<T>(a: seq<T>, b: seq<T>, c: seq<T>)
    ensures (a + b) + c == a + (b + c)
  {
  }
}
