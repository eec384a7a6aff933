/** Facts about sequences that loops over them need. */
module Seqs {
  lemma TakeMore<T>(s: seq<T>, i: nat)
    requires i < |s|
    ensures s[..i + 1] == s[..i] + [s[i]]
  {
  }

  lemma SliceMore<T>(s: seq<T>, lo: nat, i: nat)
    requires lo <= i < |s|
    ensures s[lo..i + 1] == s[lo..i] + [s[i]]
  {
  }

  lemma TakeAll<T>(s: seq<T>)
    ensures s[..|s|] == s
  {
  }

  /** Two concatenations split at the same place are equal part by part. */
  lemma SplitEqual<T>(a: seq<T>, b: seq<T>, a': seq<T>, b': seq<T>)
    requires |a| == |a'| && a + b == a' + b'
    ensures a == a' && b == b'
  {
    assert a == (a + b)[..|a|] && a' == (a' + b')[..|a|];
    assert b == (a + b)[|a|..] && b' == (a' + b')[|a|..];
  }

  lemma AppendEmpty<T>(s: seq<T>)
    ensures s + [] == s
  {
  }

  lemma AppendAssoc<T>(a: seq<T>, b: seq<T>, c: seq<T>)
    ensures (a + b) + c == a + (b + c)
  {
  }

  /** A slice of a longer sequence's front. */
  lemma SliceOfFront<T>(a: seq<T>, b: seq<T>, lo: nat, hi: nat)
    requires lo <= hi <= |a|
    ensures (a + b)[lo..hi] == a[lo..hi]
  {
  }

  lemma LastPart<T>(a: seq<T>, b: seq<T>)
    ensures (a + b)[|a|..|a| + |b|] == b
  {
  }

  lemma FourParts<T>(a: seq<T>, b: seq<T>, c: seq<T>, d: seq<T>)
    ensures var x, i, j, k := a + b + c + d, |a|, |a| + |b|, |a| + |b| + |c|;
            x[..i] == a && x[i..j] == b && x[j..k] == c && x[k..k + |d|] == d
  {
    LastPart(a + b + c, d);
    LastPart(a + b, c);
    LastPart(a, b);
    SliceOfFront(a + b + c, d, 0, |a|);
    SliceOfFront(a + b + c, d, |a|, |a| + |b|);
    SliceOfFront(a + b + c, d, |a| + |b|, |a| + |b| + |c|);
    SliceOfFront(a + b, c, 0, |a|);
    SliceOfFront(a + b, c, |a|, |a| + |b|);
  }

  lemma TakeOfTake<T>(s: seq<T>, n: nat, k: nat)
    requires k <= n <= |s|
    ensures s[..n][..k] == s[..k]
  {
  }
}
