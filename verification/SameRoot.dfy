/**
 * Which trees share a root: exactly those that are equal up to swapping siblings and up to
 * fields that are not anchored, or else a hash collision can be read off the two trees.
 */
module SameRoot {
  import opened ByteStrings
  import opened Telemetry
  import opened Merkle

  /** One tree can be turned into the other by swapping siblings. */
  predicate Swapped(t: Tree, u: Tree) {
    match (t, u)
    case (Leaf(p), Leaf(q)) => CanonicalFields(p) == CanonicalFields(q)
    case (Node(a, b), Node(c, d)) => (Swapped(a, c) && Swapped(b, d)) || (Swapped(a, d) && Swapped(b, c))
    case _ => false
  }

  /** Swapping siblings does not show in the root. */
  lemma {:induction false} SwappedSameValue(h: Hash, t: Tree, u: Tree)
    requires Swapped(t, u)
    ensures Value(h, t) == Value(h, u)
  {
    match (t, u)
    case (Leaf(p), Leaf(q)) => assert Packed(h, p) == Packed(h, q);
    case (Node(a, b), Node(c, d)) =>
      FoldStepIsParent(h, Value(h, c), Value(h, d));
      if Swapped(a, c) && Swapped(b, d) {
        SwappedSameValue(h, a, c);
        SwappedSameValue(h, b, d);
      } else {
        SwappedSameValue(h, a, d);
        SwappedSameValue(h, b, c);
        assert Value(h, t) == Parent(h, Value(h, d), Value(h, c));
      }
  }

  lemma EqualPairs(a: Bytes32, b: Bytes32, c: Bytes32, d: Bytes32)
    requires SortedPair(a, b) == SortedPair(c, d)
    ensures (a == c && b == d) || (a == d && b == c)
  {
    SortedPairHalves(a, b, c, d);
    var x, y := SortedPair(a, b), SortedPair(c, d);
    assert x[..32] == y[..32] && x[32..] == y[32..];
    assert (x[..32] == a && x[32..] == b) || (x[..32] == b && x[32..] == a);
    assert (y[..32] == c && y[32..] == d) || (y[..32] == d && y[32..] == c);
  }

  /** Walks two trees with one root down together until their preimages differ. */
  function Compare(h: Hash, t: Tree, u: Tree): (Bytes, Bytes) {
    if Preimage(h, t) != Preimage(h, u) then (Preimage(h, t), Preimage(h, u))
    else
      match (t, u)
      case (Leaf(p), Leaf(q)) => (p.deviceId, q.deviceId)
      case (Node(a, b), Node(c, d)) =>
        var straight := Value(h, a) == Value(h, c) && Value(h, b) == Value(h, d);
        var first := Compare(h, a, if straight then c else d);
        if Collision(h, first) then first else Compare(h, b, if straight then d else c)
      case _ => ([], [])
  }

  lemma {:induction false} CompareSound(h: Hash, t: Tree, u: Tree)
    requires Value(h, t) == Value(h, u)
    ensures Swapped(t, u) || Collision(h, Compare(h, t, u))
  {
    if Preimage(h, t) == Preimage(h, u) {
      match (t, u)
      case (Leaf(p), Leaf(q)) => PackedInjective(h, p, q);
      case (Node(a, b), Node(c, d)) =>
        EqualPairs(Value(h, a), Value(h, b), Value(h, c), Value(h, d));
        if Value(h, a) == Value(h, c) && Value(h, b) == Value(h, d) {
          CompareSound(h, a, c);
          CompareSound(h, b, d);
        } else {
          CompareSound(h, a, d);
          CompareSound(h, b, c);
        }
      case _ => assert false;
    }
  }

  /** Two batches with one root: the same tree up to swaps, or a collision. */
  lemma SameRootIff(h: Hash, a: seq<SignedPing>, b: seq<SignedPing>)
    requires |a| > 0 && |b| > 0
    ensures Swapped(BuildTree(a), BuildTree(b)) ==> Root(h, Leaves(h, a)) == Root(h, Leaves(h, b))
    ensures Root(h, Leaves(h, a)) == Root(h, Leaves(h, b)) ==>
              Swapped(BuildTree(a), BuildTree(b)) || Collision(h, Compare(h, BuildTree(a), BuildTree(b)))
  {
    BuildTreeSpec(h, a);
    BuildTreeSpec(h, b);
    if Swapped(BuildTree(a), BuildTree(b)) {
      SwappedSameValue(h, BuildTree(a), BuildTree(b));
    }
    if Root(h, Leaves(h, a)) == Root(h, Leaves(h, b)) {
      CompareSound(h, BuildTree(a), BuildTree(b));
    }
  }

  // ---------------------------------------------------------------- size

  function Size(t: Tree): nat {
    match t
    case Leaf(_) => 1
    case Node(l, r) => Size(l) + Size(r)
  }

  function TotalSize(ts: seq<Tree>): nat {
    if |ts| == 0 then 0 else Size(ts[0]) + TotalSize(ts[1..])
  }

  lemma {:induction false} SwappedSameSize(t: Tree, u: Tree)
    requires Swapped(t, u)
    ensures Size(t) == Size(u)
  {
    match (t, u)
    case (Leaf(_), Leaf(_)) =>
    case (Node(a, b), Node(c, d)) =>
      if Swapped(a, c) && Swapped(b, d) {
        SwappedSameSize(a, c);
        SwappedSameSize(b, d);
      } else {
        SwappedSameSize(a, d);
        SwappedSameSize(b, c);
      }
  }

  lemma {:induction false} PairsKeepSize(ts: seq<Tree>)
    ensures TotalSize(PairUp(ts)) == TotalSize(ts)
  {
    if |ts| >= 2 {
      PairsKeepSize(ts[2..]);
      assert PairUp(ts)[1..] == PairUp(ts[2..]);
      assert ts[1..][1..] == ts[2..];
    }
  }

  lemma {:induction false} GrowKeepsSize(ts: seq<Tree>)
    requires |ts| > 0
    ensures Size(Grow(ts)) == TotalSize(ts)
    decreases |ts|
  {
    if |ts| > 1 {
      PairsKeepSize(ts);
      GrowKeepsSize(PairUp(ts));
    }
  }

  lemma {:induction false} LeavesSize(ts: seq<Tree>)
    requires forall i :: 0 <= i < |ts| ==> ts[i].Leaf?
    ensures TotalSize(ts) == |ts|
  {
    if |ts| > 0 {
      LeavesSize(ts[1..]);
    }
  }

  lemma TreeSize(pings: seq<SignedPing>)
    requires |pings| > 0
    ensures Size(BuildTree(pings)) == |pings|
  {
    var ts := seq(|pings|, i requires 0 <= i < |pings| => Leaf(pings[i]));
    GrowKeepsSize(ts);
    LeavesSize(ts);
  }
}
