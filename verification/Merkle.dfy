/**
 * The sorted-pair Merkle tree over ping leaves: layers as merkletreejs builds them
 * (adjacent pairs, an odd last node carried up unchanged), proofs, the fold that
 * TripLogAnchor.verifyPing runs, completeness of generated proofs, and soundness by
 * collision extraction.
 */
module Merkle {
  import opened ByteStrings
  import opened Telemetry

  // ---------------------------------------------------------------- tree layers

  /** Sorted-pair concatenation, with `Buffer.compare`. */
  function SortedPair(a: Bytes32, b: Bytes32): (p: Bytes)
    ensures |p| == 64
  {
    if LexLeq(a, b) then a + b else b + a
  }

  function Parent(h: Hash, a: Bytes32, b: Bytes32): Bytes32 {
    h(SortedPair(a, b))
  }

  function NextLayer(h: Hash, layer: seq<Bytes32>): (next: seq<Bytes32>)
    ensures |next| == (|layer| + 1) / 2
  {
    if |layer| < 2 then layer
    else [Parent(h, layer[0], layer[1])] + NextLayer(h, layer[2..])
  }

  function Root(h: Hash, layer: seq<Bytes32>): Bytes32
    requires |layer| > 0
    decreases |layer|
  {
    if |layer| == 1 then layer[0] else Root(h, NextLayer(h, layer))
  }

  /** The sibling of position `i`, if it has one in this layer. */
  function Sibling(layer: seq<Bytes32>, i: nat): seq<Bytes32>
    requires i < |layer|
  {
    if i % 2 == 1 then [layer[i - 1]]
    else if i + 1 < |layer| then [layer[i + 1]]
    else []
  }

  function ProofAt(h: Hash, layer: seq<Bytes32>, i: nat): seq<Bytes32>
    requires i < |layer|
    decreases |layer|
  {
    if |layer| == 1 then []
    else Sibling(layer, i) + ProofAt(h, NextLayer(h, layer), i / 2)
  }

  // ---------------------------------------------------------------- verification

  /** One step of the on-chain loop: Solidity compares `bytes32` as numbers. */
  function FoldStep(h: Hash, computed: Bytes32, p: Bytes32): Bytes32 {
    if BigEndian(computed) <= BigEndian(p) then h(computed + p) else h(p + computed)
  }

  /** What the on-chain loop computes from a leaf and a proof. */
  function Fold(h: Hash, leaf: Bytes32, proof: seq<Bytes32>): Bytes32 {
    if |proof| == 0 then leaf
    else FoldStep(h, Fold(h, leaf, proof[..|proof| - 1]), proof[|proof| - 1])
  }

  lemma FoldExtend(h: Hash, leaf: Bytes32, proof: seq<Bytes32>, i: nat)
    requires i < |proof|
    ensures Fold(h, leaf, proof[..i + 1]) == FoldStep(h, Fold(h, leaf, proof[..i]), proof[i])
  {
    assert proof[..i + 1][..i] == proof[..i];
  }

  /** The fold takes the proof from its front: the smaller number first, hashed together, and on
      with the rest. */
  lemma {:induction false} FoldFromFront(h: Hash, leaf: Bytes32, p: Bytes32, rest: seq<Bytes32>)
    ensures Fold(h, leaf, []) == leaf
    ensures Fold(h, leaf, [p] + rest)
            == Fold(h, h(if BigEndian(leaf) <= BigEndian(p) then leaf + p else p + leaf), rest)
  {
    FoldSplit(h, leaf, [p], rest);
    assert [p][..0] == [];
  }

  /** The contract's numeric order and merkletreejs' buffer order hash the same bytes. */
  lemma FoldStepIsParent(h: Hash, a: Bytes32, b: Bytes32)
    ensures FoldStep(h, a, b) == Parent(h, a, b) == Parent(h, b, a)
  {
    LexIsNumeric(a, b);
    LexTotal(a, b);
  }

  lemma {:induction false} FoldSplit(h: Hash, leaf: Bytes32, p: seq<Bytes32>, q: seq<Bytes32>)
    ensures Fold(h, leaf, p + q) == Fold(h, Fold(h, leaf, p), q)
  {
    if |q| == 0 {
      assert p + q == p;
    } else {
      assert (p + q)[..|p + q| - 1] == p + q[..|q| - 1];
      FoldSplit(h, leaf, p, q[..|q| - 1]);
    }
  }

  lemma {:induction false} NextLayerAt(h: Hash, layer: seq<Bytes32>, k: nat)
    requires k < (|layer| + 1) / 2
    ensures NextLayer(h, layer)[k] ==
            if 2 * k + 1 < |layer| then Parent(h, layer[2 * k], layer[2 * k + 1]) else layer[2 * k]
  {
    if |layer| >= 2 && k > 0 {
      NextLayerAt(h, layer[2..], k - 1);
    }
  }

  /** Folding in the sibling climbs exactly one layer, odd last node included. */
  lemma FoldSibling(h: Hash, layer: seq<Bytes32>, i: nat)
    requires 1 < |layer| && i < |layer|
    ensures Fold(h, layer[i], Sibling(layer, i)) == NextLayer(h, layer)[i / 2]
  {
    Halves(i, |layer|);
    SiblingAt(layer, i, i / 2);
    FoldPair(h, layer, i / 2);
  }

  lemma Halves(i: nat, n: nat)
    requires i < n
    ensures i / 2 < (n + 1) / 2 && (i == 2 * (i / 2) || i == 2 * (i / 2) + 1)
  {
  }

  lemma SiblingAt(layer: seq<Bytes32>, i: nat, k: nat)
    requires i < |layer| && (i == 2 * k || i == 2 * k + 1)
    ensures i == 2 * k + 1 ==> Sibling(layer, i) == [layer[2 * k]]
    ensures i == 2 * k && i + 1 < |layer| ==> Sibling(layer, i) == [layer[2 * k + 1]]
    ensures i == 2 * k && i + 1 == |layer| ==> Sibling(layer, i) == []
  {
  }

  /** Either of two neighbours folds with the other into their parent; a last one is its own. */
  lemma FoldPair(h: Hash, layer: seq<Bytes32>, k: nat)
    requires k < (|layer| + 1) / 2
    ensures 2 * k + 1 < |layer| ==>
              && Fold(h, layer[2 * k], [layer[2 * k + 1]]) == NextLayer(h, layer)[k]
              && Fold(h, layer[2 * k + 1], [layer[2 * k]]) == NextLayer(h, layer)[k]
    ensures 2 * k + 1 == |layer| ==> Fold(h, layer[2 * k], []) == NextLayer(h, layer)[k]
  {
    NextLayerAt(h, layer, k);
    if 2 * k + 1 < |layer| {
      FoldOne(h, layer[2 * k], layer[2 * k + 1]);
      FoldOne(h, layer[2 * k + 1], layer[2 * k]);
    }
  }

  lemma FoldOne(h: Hash, a: Bytes32, b: Bytes32)
    ensures Fold(h, a, [b]) == Parent(h, a, b) == Parent(h, b, a)
  {
    FoldStepIsParent(h, a, b);
    assert [b][..0] == [];
  }

  /** Completeness: every generated proof, in a batch of any size, folds to the root. */
  lemma {:induction false} ProofFoldsToRoot(h: Hash, leaves: seq<Bytes32>, i: nat)
    requires i < |leaves|
    ensures Fold(h, leaves[i], ProofAt(h, leaves, i)) == Root(h, leaves)
    decreases |leaves|
  {
    if |leaves| > 1 {
      FoldSplit(h, leaves[i], Sibling(leaves, i), ProofAt(h, NextLayer(h, leaves), i / 2));
      FoldSibling(h, leaves, i);
      ProofFoldsToRoot(h, NextLayer(h, leaves), i / 2);
    }
  }

  function Smaller(a: Bytes32, b: Bytes32): Bytes32 {
    if BigEndian(a) <= BigEndian(b) then a else b
  }

  function Larger(a: Bytes32, b: Bytes32): Bytes32 {
    if BigEndian(a) <= BigEndian(b) then b else a
  }

  /** Small batches, written out: one leaf is the root, two are hashed with the smaller number
      first, and an odd third leaf goes up as it is. */
  lemma SmallRoots(h: Hash, a: Bytes32, b: Bytes32, c: Bytes32)
    ensures Root(h, [a]) == a
    ensures Root(h, [a, b]) == h(Smaller(a, b) + Larger(a, b))
    ensures var ab := h(Smaller(a, b) + Larger(a, b));
            Root(h, [a, b, c]) == h(Smaller(ab, c) + Larger(ab, c))
  {
    ParentOrders(h, a, b);
    ParentOrders(h, Parent(h, a, b), c);
    RootOfTwo(h, a, b);
    NextOfThree(h, a, b, c);
    RootOfTwo(h, Parent(h, a, b), c);
  }

  lemma RootOfTwo(h: Hash, a: Bytes32, b: Bytes32)
    ensures Root(h, [a, b]) == Parent(h, a, b)
  {
    assert [a, b][2..] == [];
    assert NextLayer(h, [a, b]) == [Parent(h, a, b)];
  }

  lemma NextOfThree(h: Hash, a: Bytes32, b: Bytes32, c: Bytes32)
    ensures NextLayer(h, [a, b, c]) == [Parent(h, a, b), c]
  {
    assert [a, b, c][2..] == [c];
    assert NextLayer(h, [c]) == [c];
  }

  lemma ParentOrders(h: Hash, a: Bytes32, b: Bytes32)
    ensures Parent(h, a, b) == h(Smaller(a, b) + Larger(a, b))
  {
    FoldStepIsParent(h, a, b);
  }

  // ---------------------------------------------------------------- soundness

  /** The tree behind the layers, with pings at its leaves. */
  datatype Tree = Leaf(ping: SignedPing) | Node(left: Tree, right: Tree)

  function Preimage(h: Hash, t: Tree): Bytes {
    match t
    case Leaf(p) => Packed(h, p)
    case Node(l, r) => SortedPair(h(Preimage(h, l)), h(Preimage(h, r)))
  }

  function Value(h: Hash, t: Tree): Bytes32 {
    h(Preimage(h, t))
  }

  function PingsOf(t: Tree): set<SignedPing> {
    match t
    case Leaf(p) => {p}
    case Node(l, r) => PingsOf(l) + PingsOf(r)
  }

  function AllPings(ts: seq<Tree>): set<SignedPing> {
    if |ts| == 0 then {} else PingsOf(ts[0]) + AllPings(ts[1..])
  }

  function PairUp(ts: seq<Tree>): (next: seq<Tree>)
    ensures |next| == (|ts| + 1) / 2
  {
    if |ts| < 2 then ts else [Node(ts[0], ts[1])] + PairUp(ts[2..])
  }

  function Grow(ts: seq<Tree>): Tree
    requires |ts| > 0
    decreases |ts|
  {
    if |ts| == 1 then ts[0] else Grow(PairUp(ts))
  }

  function BuildTree(pings: seq<SignedPing>): Tree
    requires |pings| > 0
  {
    Grow(seq(|pings|, i requires 0 <= i < |pings| => Leaf(pings[i])))
  }

  function Values(h: Hash, ts: seq<Tree>): (vs: seq<Bytes32>)
    ensures |vs| == |ts|
  {
    seq(|ts|, i requires 0 <= i < |ts| => Value(h, ts[i]))
  }

  lemma {:induction false} ValuesOfPairs(h: Hash, ts: seq<Tree>)
    ensures Values(h, PairUp(ts)) == NextLayer(h, Values(h, ts))
  {
    if |ts| >= 2 {
      ValuesOfPairs(h, ts[2..]);
      assert Values(h, ts)[2..] == Values(h, ts[2..]);
      assert Values(h, PairUp(ts)) ==
             [Value(h, Node(ts[0], ts[1]))] + Values(h, PairUp(ts[2..]));
    }
  }

  lemma {:induction false} PairsKeepPings(ts: seq<Tree>)
    ensures AllPings(PairUp(ts)) == AllPings(ts)
  {
    if |ts| >= 2 {
      PairsKeepPings(ts[2..]);
      assert PairUp(ts)[1..] == PairUp(ts[2..]);
      assert ts[1..][1..] == ts[2..];
    }
  }

  lemma {:induction false} GrowSpec(h: Hash, ts: seq<Tree>)
    requires |ts| > 0
    ensures Value(h, Grow(ts)) == Root(h, Values(h, ts))
    ensures PingsOf(Grow(ts)) == AllPings(ts)
    decreases |ts|
  {
    if |ts| > 1 {
      ValuesOfPairs(h, ts);
      PairsKeepPings(ts);
      GrowSpec(h, PairUp(ts));
    }
  }

  lemma {:induction false} LeavesHoldPings(ts: seq<Tree>, pings: seq<SignedPing>)
    requires |ts| == |pings| && forall i :: 0 <= i < |ts| ==> ts[i] == Leaf(pings[i])
    ensures AllPings(ts) == set p | p in pings
  {
    if |ts| > 0 {
      LeavesHoldPings(ts[1..], pings[1..]);
      assert pings == [pings[0]] + pings[1..];
    }
  }

  /** The layered root is the value of a tree holding exactly the batch's pings. */
  lemma BuildTreeSpec(h: Hash, pings: seq<SignedPing>)
    requires |pings| > 0
    ensures Value(h, BuildTree(pings)) == Root(h, Leaves(h, pings))
    ensures PingsOf(BuildTree(pings)) == set p | p in pings
  {
    var ts := seq(|pings|, i requires 0 <= i < |pings| => Leaf(pings[i]));
    GrowSpec(h, ts);
    LeavesHoldPings(ts, pings);
    assert Values(h, ts) == Leaves(h, pings);
  }

  /** Two different byte strings with the same hash. */
  predicate Collision(h: Hash, pair: (Bytes, Bytes)) {
    pair.0 != pair.1 && h(pair.0) == h(pair.1)
  }

  predicate Committed(p: SignedPing, pings: set<SignedPing>) {
    exists q :: q in pings && CanonicalFields(q) == CanonicalFields(p)
  }

  /** The bytes whose hash the fold ends on. */
  function FoldPreimage(h: Hash, p: SignedPing, proof: seq<Bytes32>): Bytes {
    if |proof| == 0 then Packed(h, p)
    else SortedPair(Fold(h, PingLeaf(h, p), proof[..|proof| - 1]), proof[|proof| - 1])
  }

  lemma FoldHashesPreimage(h: Hash, p: SignedPing, proof: seq<Bytes32>)
    ensures Fold(h, PingLeaf(h, p), proof) == h(FoldPreimage(h, p, proof))
  {
    if |proof| > 0 {
      FoldStepIsParent(h, Fold(h, PingLeaf(h, p), proof[..|proof| - 1]), proof[|proof| - 1]);
    }
  }

  /** Walks the proof and the tree down together until their preimages differ, or until
      two leaves are reached whose device ids must differ. */
  function Extract(h: Hash, p: SignedPing, proof: seq<Bytes32>, t: Tree): (Bytes, Bytes) {
    if FoldPreimage(h, p, proof) != Preimage(h, t) then (FoldPreimage(h, p, proof), Preimage(h, t))
    else
      match t
      case Leaf(q) => (p.deviceId, q.deviceId)
      case Node(l, r) =>
        if |proof| == 0 then ([], [])
        else
          var init := proof[..|proof| - 1];
          if Fold(h, PingLeaf(h, p), init) == Value(h, l) then Extract(h, p, init, l)
          else Extract(h, p, init, r)
  }

  /** Equal sorted pairs have the same two halves. */
  lemma SortedPairHalves(a: Bytes32, b: Bytes32, c: Bytes32, d: Bytes32)
    requires SortedPair(a, b) == SortedPair(c, d)
    ensures a == c || a == d
  {
    var x, y := SortedPair(a, b), SortedPair(c, d);
    assert x[..32] == y[..32] && x[32..] == y[32..];
    assert (x[..32] == a && x[32..] == b) || (x[..32] == b && x[32..] == a);
    assert (y[..32] == c && y[32..] == d) || (y[..32] == d && y[32..] == c);
  }

  lemma {:induction false} ExtractSound(h: Hash, p: SignedPing, proof: seq<Bytes32>, t: Tree)
    requires Fold(h, PingLeaf(h, p), proof) == Value(h, t)
    requires !Committed(p, PingsOf(t))
    ensures Collision(h, Extract(h, p, proof, t))
  {
    FoldHashesPreimage(h, p, proof);
    if FoldPreimage(h, p, proof) == Preimage(h, t) {
      match t
      case Leaf(q) =>
        PackedInjective(h, p, q);
        assert q in PingsOf(t);
      case Node(l, r) =>
        var init := proof[..|proof| - 1];
        var c := Fold(h, PingLeaf(h, p), init);
        SortedPairHalves(c, proof[|proof| - 1], Value(h, l), Value(h, r));
        var child := if c == Value(h, l) then l else r;
        assert !Committed(p, PingsOf(child)) by {
          assert PingsOf(child) <= PingsOf(t);
        }
        ExtractSound(h, p, init, child);
    }
  }

  /** Soundness: an accepted ping that was not in the batch yields a hash collision,
      computed from the ping, the proof and the batch. */
  lemma AcceptedPingCommittedOrCollision(
      h: Hash, pings: seq<SignedPing>, p: SignedPing, proof: seq<Bytes32>)
    requires |pings| > 0
    requires Fold(h, PingLeaf(h, p), proof) == Root(h, Leaves(h, pings))
    ensures Committed(p, set q | q in pings) || Collision(h, Extract(h, p, proof, BuildTree(pings)))
  {
    BuildTreeSpec(h, pings);
    if !Committed(p, set q | q in pings) {
      ExtractSound(h, p, proof, BuildTree(pings));
    }
  }

  /** A committed ping always has an accepted proof, so, collisions aside, acceptance by
      some proof is exactly membership. */
  lemma CommittedPingHasProof(h: Hash, pings: seq<SignedPing>, p: SignedPing) returns (proof: seq<Bytes32>)
    requires Committed(p, set q | q in pings)
    ensures Fold(h, PingLeaf(h, p), proof) == Root(h, Leaves(h, pings))
  {
    var q :| q in pings && CanonicalFields(q) == CanonicalFields(p);
    var i :| 0 <= i < |pings| && pings[i] == q;
    proof := ProofAt(h, Leaves(h, pings), i);
    ProofFoldsToRoot(h, Leaves(h, pings), i);
    assert Packed(h, p) == Packed(h, q);
  }
}
