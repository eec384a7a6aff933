/**
 * Rebuilding a batch when pings may share timestamps, which the archive allows: the range query
 * leaves their order open, and whether the rebuilt root is the stored one depends on where in
 * the tree they stand.
 */
module AnchorTies {
  import opened ByteStrings
  import opened Seqs
  import opened Sorting
  import opened Telemetry
  import opened Merkle
  import opened SameRoot
  import opened AnchorPipeline

  /** Pings with one timestamp stand side by side under one parent. */
  predicate TiesAreSiblings(batch: seq<SignedPing>) {
    forall i, j :: 0 <= i < j < |batch| && batch[i].ts == batch[j].ts ==> i % 2 == 0 && j == i + 1
  }

  // ---------------------------------------------------------------- times

  lemma {:induction false} BelowInSorted(s: seq<SignedPing>, v: int, k: nat)
    requires Sorted(ByTs, s) && k < |s|
    ensures s[k].ts < v <==> k < |Select(s, 0, v - 1)|
  {
    if s[0].ts < v {
      if k > 0 {
        BelowInSorted(s[1..], v, k - 1);
      }
    } else {
      assert k > 0 ==> ByTs(s[0], s[k]);
      NoneBelow(s, v);
    }
  }

  lemma {:induction false} NoneBelow(s: seq<SignedPing>, v: int)
    requires forall i :: 0 <= i < |s| ==> s[i].ts >= v
    ensures Select(s, 0, v - 1) == []
  {
    if |s| > 0 {
      NoneBelow(s[1..], v);
    }
  }

  lemma SameSelection(a: seq<SignedPing>, b: seq<SignedPing>, lo: int, hi: int)
    requires multiset(a) == multiset(b)
    ensures |Select(a, lo, hi)| == |Select(b, lo, hi)|
  {
    forall p ensures multiset(Select(a, lo, hi))[p] == multiset(Select(b, lo, hi))[p] {
      SelectCount(a, lo, hi, p);
      SelectCount(b, lo, hi, p);
    }
    assert multiset(Select(a, lo, hi)) == multiset(Select(b, lo, hi));
    assert |multiset(Select(a, lo, hi))| == |Select(a, lo, hi)|;
  }

  /** Two answers to one query agree on the timestamp at every position. */
  lemma SameTimes(a: seq<SignedPing>, b: seq<SignedPing>, k: nat)
    requires Sorted(ByTs, a) && Sorted(ByTs, b) && multiset(a) == multiset(b)
    requires k < |a| && k < |b|
    ensures a[k].ts == b[k].ts
  {
    SameSelection(a, b, 0, a[k].ts as int - 1);
    SameSelection(a, b, 0, b[k].ts as int - 1);
    BelowInSorted(a, b[k].ts, k);
    BelowInSorted(b, b[k].ts, k);
    BelowInSorted(a, a[k].ts, k);
    BelowInSorted(b, a[k].ts, k);
  }

  lemma SameLength(a: seq<SignedPing>, b: seq<SignedPing>)
    requires multiset(a) == multiset(b)
    ensures |a| == |b|
  {
    assert |multiset(a)| == |a| && |multiset(b)| == |b|;
  }

  // ---------------------------------------------------------------- ties under one parent

  /** Where a ping of the batch can turn up in another answer. */
  lemma Nearby(a: seq<SignedPing>, b: seq<SignedPing>, k: nat)
    requires Sorted(ByTs, a) && Sorted(ByTs, b) && multiset(a) == multiset(b) && TiesAreSiblings(b)
    requires k < |a| == |b|
    ensures a[k] == b[k] || (k % 2 == 0 && k + 1 < |b| && a[k] == b[k + 1] && b[k].ts == b[k + 1].ts)
            || (k % 2 == 1 && a[k] == b[k - 1] && b[k].ts == b[k - 1].ts)
  {
    SameTimes(a, b, k);
    assert a[k] in multiset(b);
    var j :| 0 <= j < |b| && b[j] == a[k];
  }

  /** And where a ping of the other answer came from. */
  lemma Present(a: seq<SignedPing>, b: seq<SignedPing>, k: nat)
    requires Sorted(ByTs, a) && Sorted(ByTs, b) && multiset(a) == multiset(b) && TiesAreSiblings(b)
    requires k < |a| == |b|
    ensures a[k] == b[k] || (k % 2 == 0 && k + 1 < |b| && a[k + 1] == b[k]) || (k % 2 == 1 && a[k - 1] == b[k])
  {
    assert b[k] in multiset(a);
    var j :| 0 <= j < |a| && a[j] == b[k];
    SameTimes(a, b, j);
  }

  lemma PairIsKept(a: seq<SignedPing>, b: seq<SignedPing>, k: nat)
    requires Sorted(ByTs, a) && Sorted(ByTs, b) && multiset(a) == multiset(b) && TiesAreSiblings(b)
    requires k % 2 == 0 && k + 1 < |a| == |b|
    ensures (a[k] == b[k] && a[k + 1] == b[k + 1]) || (a[k] == b[k + 1] && a[k + 1] == b[k])
  {
    Nearby(a, b, k);
    Nearby(a, b, k + 1);
    Present(a, b, k);
    Present(a, b, k + 1);
  }

  function LeafTrees(pings: seq<SignedPing>): (ts: seq<Tree>)
    ensures |ts| == |pings| && forall i :: 0 <= i < |pings| ==> ts[i] == Leaf(pings[i])
  {
    seq(|pings|, i requires 0 <= i < |pings| => Leaf(pings[i]))
  }

  lemma BuildIsGrow(pings: seq<SignedPing>)
    requires |pings| > 0
    ensures BuildTree(pings) == Grow(LeafTrees(pings))
  {
    assert LeafTrees(pings) == seq(|pings|, i requires 0 <= i < |pings| => Leaf(pings[i]));
  }

  lemma {:induction false} PairUpAt(ts: seq<Tree>, k: nat)
    requires k < (|ts| + 1) / 2
    ensures PairUp(ts)[k] == if 2 * k + 1 < |ts| then Node(ts[2 * k], ts[2 * k + 1]) else ts[2 * k]
  {
    if |ts| >= 2 && k > 0 {
      PairUpAt(ts[2..], k - 1);
    }
  }

  predicate AllSwapped(ts: seq<Tree>, us: seq<Tree>) {
    |ts| == |us| && forall k :: 0 <= k < |ts| ==> Swapped(ts[k], us[k])
  }

  lemma PairUpKeepsSwapped(ts: seq<Tree>, us: seq<Tree>)
    requires AllSwapped(ts, us)
    ensures AllSwapped(PairUp(ts), PairUp(us))
  {
    forall k | 0 <= k < |PairUp(ts)| ensures Swapped(PairUp(ts)[k], PairUp(us)[k]) {
      PairUpAt(ts, k);
      PairUpAt(us, k);
    }
  }

  lemma {:induction false} GrowKeepsSwapped(ts: seq<Tree>, us: seq<Tree>)
    requires |ts| > 0 && AllSwapped(ts, us)
    ensures Swapped(Grow(ts), Grow(us))
    decreases |ts|
  {
    if |ts| > 1 {
      PairUpKeepsSwapped(ts, us);
      GrowKeepsSwapped(PairUp(ts), PairUp(us));
    }
  }

  lemma SwappedLeaves(p: SignedPing, q: SignedPing, p': SignedPing, q': SignedPing)
    requires (p == p' && q == q') || (p == q' && q == p')
    ensures Swapped(Node(Leaf(p), Leaf(q)), Node(Leaf(p'), Leaf(q')))
  {
    if p == p' && q == q' {
      assert Swapped(Leaf(p), Leaf(p')) && Swapped(Leaf(q), Leaf(q'));
    } else {
      assert Swapped(Leaf(p), Leaf(q')) && Swapped(Leaf(q), Leaf(p'));
    }
  }

  /** Two layers whose k-th parents have the same two leaves, or the same one. */
  lemma SameParent(a: seq<SignedPing>, b: seq<SignedPing>, k: nat)
    requires |a| == |b| && k < (|b| + 1) / 2
    requires if 2 * k + 1 < |b|
             then (a[2 * k] == b[2 * k] && a[2 * k + 1] == b[2 * k + 1])
                  || (a[2 * k] == b[2 * k + 1] && a[2 * k + 1] == b[2 * k])
             else a[2 * k] == b[2 * k]
    ensures Swapped(PairUp(LeafTrees(a))[k], PairUp(LeafTrees(b))[k])
  {
    PairUpAt(LeafTrees(a), k);
    PairUpAt(LeafTrees(b), k);
    if 2 * k + 1 < |b| {
      SwappedLeaves(a[2 * k], a[2 * k + 1], b[2 * k], b[2 * k + 1]);
    }
  }

  lemma ParentIsKept(a: seq<SignedPing>, b: seq<SignedPing>, k: nat)
    requires Sorted(ByTs, a) && Sorted(ByTs, b) && multiset(a) == multiset(b) && TiesAreSiblings(b)
    requires |a| == |b| && k < (|b| + 1) / 2
    ensures Swapped(PairUp(LeafTrees(a))[k], PairUp(LeafTrees(b))[k])
  {
    if 2 * k + 1 < |b| { PairIsKept(a, b, 2 * k); } else { Nearby(a, b, 2 * k); }
    SameParent(a, b, k);
  }

  /** If ties are siblings, the order in which they come back does not matter. */
  lemma SiblingTiesAreHarmless(a: seq<SignedPing>, b: seq<SignedPing>)
    requires |b| > 0 && Sorted(ByTs, a) && Sorted(ByTs, b) && multiset(a) == multiset(b) && TiesAreSiblings(b)
    ensures |a| == |b| && Swapped(BuildTree(a), BuildTree(b))
  {
    SameLength(a, b);
    BuildIsGrow(a);
    BuildIsGrow(b);
    var ts, us := LeafTrees(a), LeafTrees(b);
    if |b| == 1 {
      Nearby(a, b, 0);
    } else {
      forall k | 0 <= k < |PairUp(ts)| ensures Swapped(PairUp(ts)[k], PairUp(us)[k]) {
        ParentIsKept(a, b, k);
      }
      GrowKeepsSwapped(PairUp(ts), PairUp(us));
    }
  }

  // ---------------------------------------------------------------- ties across parents

  /** The pairs of leaves under one parent. */
  function LeafPairs(t: Tree): set<set<Canonical>> {
    match t
    case Leaf(_) => {}
    case Node(Leaf(p), Leaf(q)) => {{CanonicalFields(p), CanonicalFields(q)}}
    case Node(l, r) => LeafPairs(l) + LeafPairs(r)
  }

  lemma PairsOfSwap(l: Tree, r: Tree)
    ensures LeafPairs(Node(l, r)) == LeafPairs(Node(r, l))
  {
    if l.Leaf? && r.Leaf? {
      assert {CanonicalFields(l.ping), CanonicalFields(r.ping)} == {CanonicalFields(r.ping), CanonicalFields(l.ping)};
    }
  }

  lemma PairsOfSiblings(a: Tree, b: Tree, c: Tree, d: Tree)
    requires Swapped(a, c) && Swapped(b, d) && LeafPairs(a) == LeafPairs(c) && LeafPairs(b) == LeafPairs(d)
    ensures LeafPairs(Node(a, b)) == LeafPairs(Node(c, d))
  {
  }

  lemma {:induction false} SwappedSamePairs(t: Tree, u: Tree)
    requires Swapped(t, u)
    ensures LeafPairs(t) == LeafPairs(u)
  {
    match (t, u)
    case (Leaf(_), Leaf(_)) =>
    case (Node(a, b), Node(c, d)) =>
      if Swapped(a, c) && Swapped(b, d) {
        SwappedSamePairs(a, c);
        SwappedSamePairs(b, d);
        PairsOfSiblings(a, b, c, d);
      } else {
        SwappedSamePairs(a, d);
        SwappedSamePairs(b, c);
        PairsOfSiblings(a, b, d, c);
        PairsOfSwap(c, d);
      }
  }

  ghost predicate InSome(ts: seq<Tree>, x: set<Canonical>) {
    exists k :: 0 <= k < |ts| && x in LeafPairs(ts[k])
  }

  /** Only the last tree of a layer can be a single leaf. */
  predicate NodesFirst(ts: seq<Tree>) {
    forall k :: 0 <= k < |ts| - 1 ==> ts[k].Node?
  }

  lemma PairsOfNode(l: Tree, r: Tree)
    requires l.Node? || r.Node?
    ensures LeafPairs(Node(l, r)) == LeafPairs(l) + LeafPairs(r)
  {
  }

  lemma PairsAbove(ts: seq<Tree>, k: nat, x: set<Canonical>)
    requires NodesFirst(ts) && k < |PairUp(ts)|
    ensures x in LeafPairs(PairUp(ts)[k]) <==>
              x in LeafPairs(ts[2 * k]) || (2 * k + 1 < |ts| && x in LeafPairs(ts[2 * k + 1]))
    ensures k < |PairUp(ts)| - 1 ==> PairUp(ts)[k].Node?
  {
    PairUpAt(ts, k);
    if 2 * k + 1 < |ts| {
      PairsOfNode(ts[2 * k], ts[2 * k + 1]);
    }
  }

  lemma PairUpKeepsPairs(ts: seq<Tree>, x: set<Canonical>)
    requires NodesFirst(ts)
    ensures NodesFirst(PairUp(ts)) && (InSome(PairUp(ts), x) <==> InSome(ts, x))
  {
    forall k | 0 <= k < |PairUp(ts)| - 1 ensures PairUp(ts)[k].Node? {
      PairsAbove(ts, k, x);
    }
    if k :| 0 <= k < |ts| && x in LeafPairs(ts[k]) {
      PairsAbove(ts, k / 2, x);
    }
    if k :| 0 <= k < |PairUp(ts)| && x in LeafPairs(PairUp(ts)[k]) {
      PairsAbove(ts, k, x);
    }
  }

  lemma {:induction false} GrowKeepsPairs(ts: seq<Tree>, x: set<Canonical>)
    requires |ts| > 0 && NodesFirst(ts)
    ensures x in LeafPairs(Grow(ts)) <==> InSome(ts, x)
    decreases |ts|
  {
    if |ts| > 1 {
      PairUpKeepsPairs(ts, x);
      GrowKeepsPairs(PairUp(ts), x);
    }
  }

  function PairAt(pings: seq<SignedPing>, k: nat): set<Canonical>
    requires k + 1 < |pings|
  {
    {CanonicalFields(pings[k]), CanonicalFields(pings[k + 1])}
  }

  lemma PairsAtBottom(pings: seq<SignedPing>, m: nat, x: set<Canonical>)
    requires |pings| > 1 && m < (|pings| + 1) / 2
    ensures var next := PairUp(LeafTrees(pings));
            && (m < |next| - 1 ==> next[m].Node?)
            && (x in LeafPairs(next[m]) <==> 2 * m + 1 < |pings| && x == PairAt(pings, 2 * m))
  {
    PairUpAt(LeafTrees(pings), m);
  }

  /** The leaf pairs of a batch's tree are its positions 0 and 1, 2 and 3, and so on. */
  lemma PairsOfBatch(pings: seq<SignedPing>, x: set<Canonical>)
    requires |pings| > 1
    ensures x in LeafPairs(BuildTree(pings)) <==>
              exists m :: 0 <= m < |pings| / 2 && x == PairAt(pings, 2 * m)
  {
    BuildIsGrow(pings);
    var next := PairUp(LeafTrees(pings));
    forall m | 0 <= m < |next|
      ensures m < |next| - 1 ==> next[m].Node?
      ensures x in LeafPairs(next[m]) <==> m < |pings| / 2 && x == PairAt(pings, 2 * m)
    {
      PairsAtBottom(pings, m, x);
    }
    GrowKeepsPairs(next, x);
    if m :| 0 <= m < |pings| / 2 && x == PairAt(pings, 2 * m) {
      assert x in LeafPairs(next[m]);
    }
  }

  predicate DistinctFields(pings: seq<SignedPing>) {
    forall i, j :: 0 <= i < j < |pings| ==> CanonicalFields(pings[i]) != CanonicalFields(pings[j])
  }

  /** The batch with positions k and k + 1 exchanged. */
  function Exchanged(b: seq<SignedPing>, k: nat): seq<SignedPing>
    requires k + 1 < |b|
  {
    b[k := b[k + 1]][k + 1 := b[k]]
  }

  lemma ExchangeIsAnswer(b: seq<SignedPing>, k: nat)
    requires k + 1 < |b| && Sorted(ByTs, b) && b[k].ts == b[k + 1].ts
    ensures Sorted(ByTs, Exchanged(b, k)) && multiset(Exchanged(b, k)) == multiset(b)
  {
    var a := Exchanged(b, k);
    forall i, j | 0 <= i < j < |a| ensures ByTs(a[i], a[j]) {
      assert a[i].ts == b[i].ts && a[j].ts == b[j].ts;
      assert ByTs(b[i], b[j]);
    }
  }

  /** Exchanging the second leaf of one pair with the first of the next shows in the tree. */
  lemma ExchangeShows(b: seq<SignedPing>, k: nat)
    requires k % 2 == 1 && k + 1 < |b| && DistinctFields(b)
    ensures !Swapped(BuildTree(Exchanged(b, k)), BuildTree(b))
  {
    var a := Exchanged(b, k);
    var x := PairAt(b, k - 1);
    PairsOfBatch(b, x);
    PairsOfBatch(a, x);
    var half := (k - 1) / 2;
    assert 2 * half == k - 1 && half < |b| / 2 && x == PairAt(b, 2 * half);
    assert x in LeafPairs(BuildTree(b));
    forall m | 0 <= m < |a| / 2 ensures x != PairAt(a, 2 * m) {
      PairMoved(b, k, 2 * m);
    }
    assert x !in LeafPairs(BuildTree(a));
    if Swapped(BuildTree(a), BuildTree(b)) {
      SwappedSamePairs(BuildTree(a), BuildTree(b));
    }
  }

  lemma PairMoved(b: seq<SignedPing>, k: nat, m: nat)
    requires k % 2 == 1 && m % 2 == 0 && k + 1 < |b| && m + 1 < |b| && DistinctFields(b)
    ensures PairAt(Exchanged(b, k), m) != PairAt(b, k - 1)
  {
    var a := Exchanged(b, k);
    var first, second := CanonicalFields(b[k - 1]), CanonicalFields(b[k]);
    if m == k + 1 {
      assert first !in PairAt(a, m);
    } else {
      assert second !in PairAt(a, m);
    }
    assert first in PairAt(b, k - 1) && second in PairAt(b, k - 1);
  }

  /** Some tie that is not between siblings is between neighbours of different parents. */
  lemma TieAcrossParents(b: seq<SignedPing>) returns (k: nat)
    requires Sorted(ByTs, b) && !TiesAreSiblings(b)
    ensures k % 2 == 1 && k + 1 < |b| && b[k].ts == b[k + 1].ts
  {
    var i, j :| 0 <= i < j < |b| && b[i].ts == b[j].ts && !(i % 2 == 0 && j == i + 1);
    k := if i % 2 == 1 then i else i + 1;
    assert (i < k ==> ByTs(b[i], b[k])) && ByTs(b[k], b[k + 1]) && (k + 1 < j ==> ByTs(b[k + 1], b[j]));
  }

  /** For a batch of different pings: every answer of the range query rebuilds the stored tree,
      sibling swaps aside, exactly if equal timestamps only occur between siblings. */
  lemma EveryAnswerRebuildsIff(batch: seq<SignedPing>, archive: seq<SignedPing>, lo: int, hi: int)
    requires |batch| > 0 && Answers(batch, archive, lo, hi) && DistinctFields(batch)
    ensures (forall a :: Answers(a, archive, lo, hi) ==> |a| > 0 && Swapped(BuildTree(a), BuildTree(batch)))
            <==> TiesAreSiblings(batch)
  {
    if TiesAreSiblings(batch) {
      forall a | Answers(a, archive, lo, hi) ensures |a| > 0 && Swapped(BuildTree(a), BuildTree(batch)) {
        SiblingTiesAreHarmless(a, batch);
      }
    } else {
      var k := TieAcrossParents(batch);
      ExchangeIsAnswer(batch, k);
      ExchangeShows(batch, k);
      assert Answers(Exchanged(batch, k), archive, lo, hi);
    }
  }

  // ---------------------------------------------------------------- what a proof is worth

  lemma {:induction false} SelectConcat(a: seq<SignedPing>, b: seq<SignedPing>, lo: int, hi: int)
    ensures Select(a + b, lo, hi) == Select(a, lo, hi) + Select(b, lo, hi)
  {
    if |a| == 0 {
      assert a + b == b;
    } else {
      SelectConcat(a[1..], b, lo, hi);
      assert (a + b)[0] == a[0] && (a + b)[1..] == a[1..] + b;
      AppendAssoc([a[0]], Select(a[1..], lo, hi), Select(b, lo, hi));
    }
  }

  lemma AnswerLength(archive: seq<SignedPing>, more: seq<SignedPing>, batch: seq<SignedPing>, answer: seq<SignedPing>,
                     lo: int, hi: int)
    requires Answers(batch, archive, lo, hi) && Answers(answer, archive + more, lo, hi)
    ensures |answer| == |batch| + |Select(more, lo, hi)|
    ensures Select(more, lo, hi) == [] ==> Answers(answer, archive, lo, hi)
  {
    SelectConcat(archive, more, lo, hi);
    SameLength(answer, Select(archive + more, lo, hi));
    SameLength(batch, Select(archive, lo, hi));
  }

  /** Exactly when the rebuild works, for any archive, timestamps repeated or not. `batch` is the
      answer the row was made from, `more` what was archived after it. Proofs from the rebuilt
      answer verify exactly if its tree is the batch's up to sibling swaps, collisions aside. A
      ping late into the window rules that out; with nothing late it is certain where ties are
      siblings. */
  lemma VerifiesIffNothingLate(h: Hash, archive: seq<SignedPing>, more: seq<SignedPing>, r: Row,
                               batch: seq<SignedPing>, answer: seq<SignedPing>, pick: nat)
    returns (evidence: (Bytes, Bytes))
    requires |batch| > 0 && Answers(batch, archive, r.fromTs, r.toTs) && Root(h, Leaves(h, batch)) == r.root
    requires Answers(answer, archive + more, r.fromTs, r.toTs) && pick < |answer|
    ensures var verified := Fold(h, Leaves(h, answer)[pick], ProofAt(h, Leaves(h, answer), pick)) == r.root;
            var late := Select(more, r.fromTs, r.toTs);
            var same := Swapped(BuildTree(answer), BuildTree(batch));
            && (same ==> verified) && (verified ==> same || Collision(h, evidence))
            && (late != [] ==> !same)
            && (late == [] && TiesAreSiblings(batch) ==> same)
  {
    evidence := Compare(h, BuildTree(answer), BuildTree(batch));
    ProofFoldsToRoot(h, Leaves(h, answer), pick);
    SameRootIff(h, answer, batch);
    AnswerLength(archive, more, batch, answer, r.fromTs, r.toTs);
    TreeSize(answer);
    TreeSize(batch);
    if Swapped(BuildTree(answer), BuildTree(batch)) {
      SwappedSameSize(BuildTree(answer), BuildTree(batch));
    }
    if Select(more, r.fromTs, r.toTs) == [] && TiesAreSiblings(batch) {
      SiblingTiesAreHarmless(answer, batch);
    }
  }

  /** The smallest failure: of three pings the last two share a timestamp, nothing is late, and
      the archive may answer with these two exchanged. No proof from that answer verifies, unless
      it yields a collision. */
  lemma TiedPingsCanFail(h: Hash, p: SignedPing, q: SignedPing, q': SignedPing, pick: nat)
    returns (evidence: (Bytes, Bytes))
    requires p.ts < q.ts == q'.ts && CanonicalFields(q) != CanonicalFields(q') && pick < 3
    ensures var batch, answer := [p, q, q'], [p, q', q];
            var r := BatchRow(h, batch);
            && Answers(batch, batch, r.fromTs, r.toTs) && Answers(answer, batch, r.fromTs, r.toTs)
            && (Fold(h, Leaves(h, answer)[pick], ProofAt(h, Leaves(h, answer), pick)) == r.root ==>
                  Collision(h, evidence))
  {
    var batch, answer := [p, q, q'], [p, q', q];
    var r := BatchRow(h, batch);
    TiedAnswers(p, q, q');
    ThreeFields(p, q, q');
    ExchangeShows(batch, 1);
    OtherOrder(p, q, q');
    assert batch + [] == batch;
    evidence := VerifiesIffNothingLate(h, batch, [], r, batch, answer, pick);
  }

  lemma ThreeFields(p: SignedPing, q: SignedPing, q': SignedPing)
    requires p.ts < q.ts == q'.ts && CanonicalFields(q) != CanonicalFields(q')
    ensures DistinctFields([p, q, q'])
  {
    assert CanonicalFields(p).ts == p.ts && CanonicalFields(q).ts == CanonicalFields(q').ts == q.ts;
  }

  lemma TiedAnswers(p: SignedPing, q: SignedPing, q': SignedPing)
    requires p.ts < q.ts == q'.ts
    ensures Answers([p, q, q'], [p, q, q'], p.ts, q.ts) && Answers([p, q', q], [p, q, q'], p.ts, q.ts)
  {
    var batch := [p, q, q'];
    InOrder(p, q, q');
    AllSelected(batch, p.ts, q.ts);
    ExchangeIsAnswer(batch, 1);
    OtherOrder(p, q, q');
  }

  lemma InOrder(p: SignedPing, q: SignedPing, q': SignedPing)
    requires p.ts < q.ts == q'.ts
    ensures Sorted(ByTs, [p, q, q']) && forall i :: 0 <= i < 3 ==> p.ts <= [p, q, q'][i].ts <= q.ts
  {
  }

  lemma OtherOrder(p: SignedPing, q: SignedPing, q': SignedPing)
    ensures Exchanged([p, q, q'], 1) == [p, q', q]
  {
  }

  lemma {:induction false} AllSelected(s: seq<SignedPing>, lo: int, hi: int)
    requires forall i :: 0 <= i < |s| ==> lo <= s[i].ts <= hi
    ensures Select(s, lo, hi) == s
  {
    if |s| > 0 {
      AllSelected(s[1..], lo, hi);
    }
  }
}
