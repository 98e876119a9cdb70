/** Facts about prefixes of sequences and sizes of sets that several modules need. */
module Collections {
  lemma PrefixGrows<T>(s: seq<T>, i: nat)
    requires i < |s|
    ensures s[..i + 1] == s[..i] + [s[i]] && s[..i + 1][..i] == s[..i] && |s[..i + 1]| == i + 1
  {
  }

  lemma WholePrefix<T>(s: seq<T>)
    ensures s[..|s|] == s && s[..0] == []
  {
  }

  lemma AppendLast<T>(a: seq<T>, b: seq<T>)
    requires b != []
    ensures a + b == a + b[..|b| - 1] + [b[|b| - 1]]
  {
  }

  lemma Smaller<T>(a: set<T>, b: set<T>)
    requires a <= b
    ensures |a| <= |b|
  {
    assert b == a + (b - a);
  }
}
