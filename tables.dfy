/**
  Facts about the decoders' constant lookup tables. A property of every entry of a table is
  stated with `Every`; since the verifier only unfolds a map display of a few dozen entries at
  a time, each large table is written as a union of blocks and `Every` is proved per block.
*/
module Tables {

  ghost predicate Every<K, V>(m: map<K, V>, p: (K, V) -> bool)
  {
    forall k :: k in m ==> p(k, m[k])
  }

  /** A property of every entry of two blocks holds of every entry of their union, whichever block supplies the value. */
  lemma EveryUnion<K, V>(a: map<K, V>, b: map<K, V>, p: (K, V) -> bool)
    requires Every(a, p) && Every(b, p)
    ensures Every(a + b, p)
  {
  }

  lemma EveryAt<K, V>(m: map<K, V>, p: (K, V) -> bool, k: K)
    requires Every(m, p)
    ensures k in m ==> p(k, m[k])
  {
  }

  lemma LookupLeft<K, V>(a: map<K, V>, b: map<K, V>, k: K)
    requires k in a && k !in b
    ensures k in a + b && (a + b)[k] == a[k]
  {
  }

  lemma LookupRight<K, V>(a: map<K, V>, b: map<K, V>, k: K)
    requires k in b
    ensures k in a + b && (a + b)[k] == b[k]
  {
  }

  predicate StartsWith(s: string, prefix: string)
  {
    |s| >= |prefix| && s[..|prefix|] == prefix
  }
}
