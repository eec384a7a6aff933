/**
 * The stable sort behind `[...xs].sort(cmp)`: sortedness, permutation, and when the
 * result is the only sorted arrangement.
 */
module Sorting {
  ghost predicate TotalPreorder<T(!new)>(leq: (T, T) -> bool) {
    && (forall x, y :: leq(x, y) || leq(y, x))
    && (forall x, y, z :: leq(x, y) && leq(y, z) ==> leq(x, z))
  }

  ghost predicate Sorted<T>(leq: (T, T) -> bool, s: seq<T>) {
    forall i, j :: 0 <= i < j < |s| ==> leq(s[i], s[j])
  }

  /** No two different elements of `s` compare equal. */
  ghost predicate Strict<T>(leq: (T, T) -> bool, s: seq<T>) {
    forall x, y :: x in s && y in s && leq(x, y) && leq(y, x) ==> x == y
  }

  function Insert<T>(leq: (T, T) -> bool, x: T, s: seq<T>): seq<T> {
    if |s| == 0 then [x]
    else if leq(x, s[0]) then [x] + s
    else [s[0]] + Insert(leq, x, s[1..])
  }

  function Sort<T>(leq: (T, T) -> bool, s: seq<T>): seq<T> {
    if |s| == 0 then [] else Insert(leq, s[0], Sort(leq, s[1..]))
  }

  lemma {:induction false} InsertKeeps<T>(leq: (T, T) -> bool, x: T, s: seq<T>)
    ensures multiset(Insert(leq, x, s)) == multiset{x} + multiset(s)
  {
    if |s| > 0 {
      assert s == [s[0]] + s[1..];
      if !leq(x, s[0]) {
        InsertKeeps(leq, x, s[1..]);
      }
    }
  }

  lemma {:induction false} InsertSorted<T(!new)>(leq: (T, T) -> bool, x: T, s: seq<T>)
    requires TotalPreorder(leq) && Sorted(leq, s)
    ensures Sorted(leq, Insert(leq, x, s))
  {
    if |s| > 0 && !leq(x, s[0]) {
      InsertSorted(leq, x, s[1..]);
      InsertKeeps(leq, x, s[1..]);
      var t := Insert(leq, x, s[1..]);
      forall k | 0 <= k < |t| ensures leq(s[0], t[k]) {
        assert t[k] in multiset(t);
      }
    }
  }

  /** Sorting permutes and orders. */
  lemma {:induction false} SortSpec<T(!new)>(leq: (T, T) -> bool, s: seq<T>)
    requires TotalPreorder(leq)
    ensures Sorted(leq, Sort(leq, s))
    ensures multiset(Sort(leq, s)) == multiset(s)
    ensures |Sort(leq, s)| == |s|
  {
    if |s| > 0 {
      SortSpec(leq, s[1..]);
      InsertSorted(leq, s[0], Sort(leq, s[1..]));
      InsertKeeps(leq, s[0], Sort(leq, s[1..]));
      assert s == [s[0]] + s[1..];
    }
    assert |multiset(Sort(leq, s))| == |multiset(s)|;
  }

  lemma TailMultiset<T>(s: seq<T>)
    requires |s| > 0
    ensures multiset(s[1..]) == multiset(s) - multiset{s[0]}
  {
    assert s == [s[0]] + s[1..];
  }

  lemma SameHead<T>(leq: (T, T) -> bool, s: seq<T>, t: seq<T>)
    requires Sorted(leq, s) && Sorted(leq, t) && Strict(leq, s) && |s| > 0 && |t| > 0
    requires multiset(s) == multiset(t)
    requires forall x :: x in s ==> leq(x, x)
    ensures s[0] == t[0]
  {
    assert s[0] in multiset(t) && t[0] in multiset(s);
    var i :| 0 <= i < |t| && t[i] == s[0];
    var j :| 0 <= j < |s| && s[j] == t[0];
    assert leq(s[0], t[0]) && leq(t[0], s[0]);
  }

  /** Two sorted arrangements of the same elements coincide when ties are impossible. */
  lemma {:induction false} SortedUnique<T>(leq: (T, T) -> bool, s: seq<T>, t: seq<T>)
    requires Sorted(leq, s) && Sorted(leq, t) && Strict(leq, s)
    requires multiset(s) == multiset(t)
    requires forall x :: x in s ==> leq(x, x)
    ensures s == t
  {
    assert |s| == |multiset(s)| == |multiset(t)| == |t|;
    if |s| > 0 {
      SameHead(leq, s, t);
      TailMultiset(s);
      TailMultiset(t);
      SortedUnique(leq, s[1..], t[1..]);
      assert s == [s[0]] + s[1..] && t == [t[0]] + t[1..];
    }
  }

  lemma SortedIsFixed<T>(leq: (T, T) -> bool, s: seq<T>)
    requires Sorted(leq, s)
    ensures Sort(leq, s) == s
  {
    if |s| > 0 {
      SortedIsFixed(leq, s[1..]);
      assert s == [s[0]] + s[1..];
    }
  }
}
