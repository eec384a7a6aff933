/** Selective disclosure: one ping of an anchored batch, with a proof anyone can check. */
module ProofApi {
  import opened Wrappers
  import opened ByteStrings
  import opened Telemetry
  import opened Merkle
  import opened AnchorPipeline
  import opened AnchorAgreement
  import opened AnchorRebuild
  import opened AnchorService
  import opened TripLog

  datatype PingProof = PingProof(
    ping: SignedPing, leaf: Bytes32, proof: seq<Bytes32>, batchIndex: nat, root: Bytes32, verifiedOnChain: bool)

  /** The disclosed leaf is its ping's, and the verdict is that of the fold on the root shown. */
  predicate Checkable(h: Hash, p: PingProof) {
    && p.leaf == PingLeaf(h, p.ping)
    && (p.verifiedOnChain <==> Fold(h, p.leaf, p.proof) == p.root)
  }

  /** A read of a batch index the contract does not have reverts. */
  datatype ReadError = OutOfBounds

  /** A trip whose jobs ran in order and that received no late pings. */
  ghost predicate InGoodOrder(h: Hash, t: Trip) {
    Lockstep(t) && AllRebuild(h, t)
  }

  class ProofApi {
    const keccak: Hash
    const store: BatchStore
    const chain: TripLogAnchor

    constructor (store: BatchStore, chain: TripLogAnchor)
      ensures this.store == store && this.chain == chain && keccak == chain.keccak
    {
      this.store, this.chain, this.keccak := store, chain, chain.keccak;
    }

    /** The pings of the latest anchored batch covering `ts`, read back by time range. */
    method BatchPingsAt(tripId: Word, ts: UInt64) returns (found: Option<(seq<SignedPing>, nat)>)
      ensures var k := LatestCovering(RowsOf(store.rows, tripId), ts);
              if k.None? then found == None
              else
                var r := RowsOf(store.rows, tripId)[k.value];
                found.Some? && Answers(found.value.0, ArchiveOf(store.pings, tripId), r.fromTs, r.toTs)
                && Some(found.value.1) == r.batchIndex
    {
      var rows := RowsOf(store.rows, tripId);
      var k := LatestCovering(rows, ts);
      if k.None? { return None; }
      var r := rows[k.value];
      var pings := store.PingsInWindow(tripId, r.fromTs, r.toTs);
      return Some((pings, r.batchIndex.value));
    }

    /** Proves the anchored ping nearest to `ts`. For a trip in good order the proof of every
        covered moment verifies on chain. */
    method ProveMoment(tripId: Word, ts: UInt64, ghost queue: AnchorQueue)
      returns (r: Result<Option<PingProof>, ReadError>)
      requires keccak == chain.keccak
      ensures r.Ok? && r.value.Some? ==>
                var p := r.value.value;
                && Checkable(keccak, p)
                && NearestIn(ArchiveOf(store.pings, tripId), RowsOf(store.rows, tripId), ts, p)
                && p.batchIndex < |BatchesOf(chain.batches, tripId)|
                && p.root == BatchesOf(chain.batches, tripId)[p.batchIndex].root
      ensures r.Ok? ==>
                (r.value.None? <==> !Disclosable(ArchiveOf(store.pings, tripId), RowsOf(store.rows, tripId), ts))
      ensures InGoodOrder(keccak, TripView(store, queue, chain, tripId)) ==>
                && r.Ok?
                && (r.value.None? <==> LatestCovering(RowsOf(store.rows, tripId), ts).None?)
                && (r.value.Some? ==> r.value.value.verifiedOnChain)
    {
      ghost var t := TripView(store, queue, chain, tripId);
      ghost var k := LatestCovering(t.rows, ts);
      var found := BatchPingsAt(tripId, ts);
      if found.None? { return Ok(None); }
      var pings, index := found.value.0, found.value.1;
      DisclosableIff(t.archive, t.rows, ts, pings);
      if InGoodOrder(keccak, t) {
        RebuiltIsBatch(keccak, t, k.value, pings);
      }
      if |pings| == 0 { return Ok(None); }
      var p, pick := ProveFrom(tripId, index, pings, ts);
      if InGoodOrder(keccak, t) {
        ProvedMomentVerifies(keccak, t, ts, pings, pick);
      }
      if p.Err? { return Err(p.error); }
      NearestIsIn(t.archive, t.rows, ts, pings, p.value);
      return Ok(Some(p.value));
    }

    /** The proof of the nearest ping of a rebuilt batch, from its tree. */
    method ProveFrom(tripId: Word, index: nat, pings: seq<SignedPing>, ts: UInt64)
      returns (r: Result<PingProof, ReadError>, ghost chosen: nat)
      requires keccak == chain.keccak && |pings| > 0
      ensures chosen < |pings| && Leaves(keccak, pings)[chosen] == PingLeaf(keccak, Nearest(pings[0], pings, ts))
      ensures r.Err? <==> index >= |BatchesOf(chain.batches, tripId)|
      ensures r.Ok? ==>
                && Checkable(keccak, r.value)
                && r.value.ping == Nearest(pings[0], pings, ts)
                && r.value.proof == ProofAt(keccak, Leaves(keccak, pings), chosen)
                && r.value.batchIndex == index && r.value.root == BatchesOf(chain.batches, tripId)[index].root
    {
      var target := NearestPing(pings, ts);
      NearestSpec(pings[0], pings, ts);
      var leaf := PingLeaf(keccak, target);
      LeafPresent(keccak, pings, target);
      // The library returns a proof for some leaf equal to the target's; any will do.
      var pick :| 0 <= pick < |pings| && Leaves(keccak, pings)[pick] == leaf;
      chosen := pick;
      var proof := ProofAt(keccak, Leaves(keccak, pings), pick);
      var verified := chain.VerifyPing(tripId, index, leaf, proof);
      if verified.None? { return Err(OutOfBounds), chosen; }
      return Ok(PingProof(target, leaf, proof, index, BatchesOf(chain.batches, tripId)[index].root, verified.value)), chosen;
    }

    /** Proves the moment of one archived ping. */
    method ProveSample(tripId: Word, q: SignedPing, ghost queue: AnchorQueue, ghost good: bool)
      returns (r: Result<Option<PingProof>, ReadError>)
      requires keccak == chain.keccak && q in ArchiveOf(store.pings, tripId)
      requires good ==> InGoodOrder(keccak, TripView(store, queue, chain, tripId))
      ensures good ==> r.Ok?
      ensures r.Ok? ==> (r.value.Some? <==> LatestCovering(RowsOf(store.rows, tripId), q.ts).Some?)
      ensures r.Ok? && r.value.Some? ==> PointFor(keccak, good, r.value.value, q)
    {
      r := ProveMoment(tripId, q.ts, queue);
      if r.Ok? {
        SampledIsDisclosed(ArchiveOf(store.pings, tripId), RowsOf(store.rows, tripId), q, r.value);
      }
    }

    /** The disclosure loop: every step-th ping, if its moment is covered. */
    method ProveSamples(tripId: Word, pings: seq<SignedPing>, step: nat, ghost queue: AnchorQueue, ghost good: bool)
      returns (r: Result<seq<PingProof>, ReadError>, taken: nat)
      requires keccak == chain.keccak && step >= 1
      requires forall q :: q in pings ==> q in ArchiveOf(store.pings, tripId)
      requires good ==> InGoodOrder(keccak, TripView(store, queue, chain, tripId))
      ensures good ==> r.Ok?
      ensures r.Ok? ==> taken == Samples(|pings|, step, 0) && |r.value| <= taken
      ensures r.Ok? ==> Underway(keccak, good, r.value, Due(RowsOf(store.rows, tripId), pings, step, 0), [])
    {
      ghost var rows := RowsOf(store.rows, tripId);
      ghost var due := Due(rows, pings, step, 0);
      ghost var rest := due;
      var points := [];
      taken := 0;
      var i := 0;
      while i < |pings|
        invariant |points| <= taken && taken + Samples(|pings|, step, i) == Samples(|pings|, step, 0)
        invariant rest == Due(rows, pings, step, i)
        invariant Underway(keccak, good, points, due, rest)
        decreases |pings| - i
      {
        var p := ProveSample(tripId, pings[i], queue, good);
        if p.Err? { return Err(p.error), taken; }
        rest := Due(rows, pings, step, i + step);
        Advance(keccak, good, points, due, pings[i], rest, p.value);
        points := if p.value.Some? then points + [p.value.value] else points;
        taken, i := taken + 1, i + step;
      }
      return Ok(points), taken;
    }

    /** Sampled proofs for a period: one for every sampled ping whose moment an anchored batch
        covers, in time order, at the ping's own timestamp; `truncated` says that some pings of
        the period were not sampled. The step is the least with which the samples fit. For a trip in good order every point is the sampled ping
        itself and verifies on chain. */
    method ProveWindow(tripId: Word, fromTs: UInt64, toTs: UInt64, maxPoints: nat, ghost queue: AnchorQueue)
      returns (r: Result<(seq<PingProof>, bool), ReadError>, ghost pings: seq<SignedPing>, ghost step: nat)
      requires keccak == chain.keccak
      ensures Answers(pings, ArchiveOf(store.pings, tripId), fromTs, toTs)
      ensures LeastStep(|pings|, if maxPoints == 0 then 1 else maxPoints, step)
      ensures r.Ok? ==>
                && |r.value.0| <= (if maxPoints == 0 then 1 else maxPoints)
                && (r.value.1 <==> |pings| > if maxPoints == 0 then 1 else maxPoints)
                && Discloses(keccak, false, r.value.0, Due(RowsOf(store.rows, tripId), pings, step, 0))
      ensures InGoodOrder(keccak, TripView(store, queue, chain, tripId)) ==>
                && r.Ok?
                && Discloses(keccak, true, r.value.0, Due(RowsOf(store.rows, tripId), pings, step, 0))
    {
      ghost var good := InGoodOrder(keccak, TripView(store, queue, chain, tripId));
      var window := store.PingsInWindow(tripId, fromTs, toTs);
      pings := window;
      AnsweredIsArchived(pings, ArchiveOf(store.pings, tripId), fromTs, toTs);
      var every := StepFor(|window|, maxPoints);
      step := every;
      StepIsLeast(|window|, maxPoints);
      var points, taken := ProveSamples(tripId, window, every, queue, good);
      if points.Err? { return Err(points.error), pings, step; }
      Arrived(keccak, good, points.value, Due(RowsOf(store.rows, tripId), pings, every, 0));
      SamplesFill(|window|, every, 0);
      TruncatedIff(|window|, maxPoints, every, taken);
      return Ok((points.value, taken < |window|)), pings, step;
    }
  }

  /** The points so far disclose the first due pings; the rest are still to come. */
  ghost predicate Underway(h: Hash, good: bool, points: seq<PingProof>, due: seq<SignedPing>, rest: seq<SignedPing>) {
    && |points| <= |due| && due[|points|..] == rest
    && forall j :: 0 <= j < |points| ==> PointFor(h, good, points[j], due[j])
  }

  /** A checkable point at a ping's timestamp, in good order the ping itself and verified. */
  predicate PointFor(h: Hash, good: bool, p: PingProof, q: SignedPing) {
    Checkable(h, p) && p.ping.ts == q.ts && (good ==> p.verifiedOnChain && p.ping == q)
  }

  lemma Advance(h: Hash, good: bool, points: seq<PingProof>, due: seq<SignedPing>, q: SignedPing, rest: seq<SignedPing>,
                p: Option<PingProof>)
    requires Underway(h, good, points, due, (if p.Some? then [q] else []) + rest)
    requires p.Some? ==> PointFor(h, good, p.value, q)
    ensures Underway(h, good, if p.Some? then points + [p.value] else points, due, rest)
  {
    if p.Some? {
      var n := |points|;
      assert due[n..][0] == due[n] && due[n..][1..] == due[n + 1..];
      assert ([q] + rest)[1..] == rest;
    } else {
      assert [] + rest == rest;
    }
  }

  lemma Arrived(h: Hash, good: bool, points: seq<PingProof>, due: seq<SignedPing>)
    requires Underway(h, good, points, due, [])
    ensures Discloses(h, good, points, due) && Discloses(h, false, points, due)
  {
    assert |due[|points|..]| == |due| - |points|;
  }

  /** Some anchored window covers the moment and the archive has a ping in it. */
  ghost predicate Disclosable(archive: seq<SignedPing>, rows: seq<Row>, ts: UInt64) {
    var k := LatestCovering(rows, ts);
    k.Some? && exists q :: q in archive && rows[k.value].fromTs <= q.ts <= rows[k.value].toTs
  }

  /** The disclosed ping is an archived one of the covering window, and none of that window's
      archived pings is nearer to the moment. */
  ghost predicate NearestIn(archive: seq<SignedPing>, rows: seq<Row>, ts: UInt64, p: PingProof) {
    var k := LatestCovering(rows, ts);
    && k.Some? && rows[k.value].batchIndex == Some(p.batchIndex)
    && p.ping in archive && rows[k.value].fromTs <= p.ping.ts <= rows[k.value].toTs
    && forall q :: q in archive && rows[k.value].fromTs <= q.ts <= rows[k.value].toTs ==>
         Distance(p.ping, ts) <= Distance(q, ts)
  }

  /** A rebuilt batch has a ping exactly if there is one to disclose. */
  lemma DisclosableIff(archive: seq<SignedPing>, rows: seq<Row>, ts: UInt64, pings: seq<SignedPing>)
    requires LatestCovering(rows, ts).Some?
    requires var r := rows[LatestCovering(rows, ts).value];
             Answers(pings, archive, r.fromTs, r.toTs)
    ensures Disclosable(archive, rows, ts) <==> |pings| > 0
  {
    var r := rows[LatestCovering(rows, ts).value];
    AnsweredIsArchived(pings, archive, r.fromTs, r.toTs);
    assert |pings| > 0 ==> pings[0] in pings;
  }

  lemma NearestIsIn(archive: seq<SignedPing>, rows: seq<Row>, ts: UInt64, pings: seq<SignedPing>, p: PingProof)
    requires LatestCovering(rows, ts).Some? && |pings| > 0
    requires var r := rows[LatestCovering(rows, ts).value];
             Answers(pings, archive, r.fromTs, r.toTs) && r.batchIndex == Some(p.batchIndex)
    requires p.ping == Nearest(pings[0], pings, ts)
    ensures NearestIn(archive, rows, ts, p)
  {
    var r := rows[LatestCovering(rows, ts).value];
    AnsweredIsArchived(pings, archive, r.fromTs, r.toTs);
    NearestSpec(pings[0], pings, ts);
    assert pings[0] in pings;
  }

  function Cap(maxPoints: nat): nat {
    if maxPoints == 0 then 1 else maxPoints
  }

  /** The sampled pings from index i on whose moment an anchored window covers. */
  function Due(rows: seq<Row>, pings: seq<SignedPing>, step: nat, i: nat): seq<SignedPing>
    requires step >= 1
    decreases |pings| - i
  {
    if i >= |pings| then []
    else (if LatestCovering(rows, pings[i].ts).Some? then [pings[i]] else []) + Due(rows, pings, step, i + step)
  }

  /** One point per due ping, in order. */
  ghost predicate Discloses(h: Hash, good: bool, points: seq<PingProof>, due: seq<SignedPing>) {
    |points| == |due| && forall j :: 0 <= j < |points| ==> PointFor(h, good, points[j], due[j])
  }

  /** A sampled ping is at distance zero from its own moment, so the point disclosed for it has
      its timestamp, and is the ping itself when timestamps are distinct. */
  lemma SampledIsDisclosed(archive: seq<SignedPing>, rows: seq<Row>, q: SignedPing, p: Option<PingProof>)
    requires q in archive
    requires p.None? <==> !Disclosable(archive, rows, q.ts)
    requires p.Some? ==> NearestIn(archive, rows, q.ts, p.value)
    ensures p.Some? <==> LatestCovering(rows, q.ts).Some?
    ensures p.Some? ==> p.value.ping.ts == q.ts && (DistinctTs(archive) ==> p.value.ping == q)
  {
    if LatestCovering(rows, q.ts).Some? {
      assert Distance(q, q.ts) == 0;
    }
    if p.Some? && DistinctTs(archive) {
      var i :| 0 <= i < |archive| && archive[i] == q;
      var j :| 0 <= j < |archive| && archive[j] == p.value.ping;
    }
  }

  /** max(1, ceil(n / maxPoints)); with maxPoints == 0 only the first ping is sampled. */
  function StepFor(n: nat, maxPoints: nat): (step: nat)
    ensures step >= 1
  {
    if n == 0 then 1
    else if maxPoints == 0 then n
    else (n + maxPoints - 1) / maxPoints
  }

  /** How many indices from i on are sampled. */
  function Samples(n: nat, step: nat, i: nat): nat
    requires step >= 1
    decreases n - i
  {
    if i >= n then 0 else 1 + Samples(n, step, i + step)
  }

  lemma {:induction false} SamplesFill(n: nat, step: nat, i: nat)
    requires step >= 1
    ensures var k := Samples(n, step, i);
            n <= i + k * step && (k == 0 || i + (k - 1) * step < n)
    decreases n - i
  {
    if i < n {
      SamplesFill(n, step, i + step);
    }
  }

  lemma SampleBound(n: nat, maxPoints: nat, step: nat, taken: nat)
    requires step == StepFor(n, maxPoints)
    requires taken == 0 || (taken - 1) * step < n
    ensures taken <= Cap(maxPoints)
  {
    if taken > 0 {
      FewSamples(taken, if maxPoints == 0 then 1 else maxPoints, step, n);
    }
  }

  /** The step is the least one whose samples are few enough. */
  ghost predicate LeastStep(n: nat, cap: nat, step: nat) {
    step >= 1 && Samples(n, step, 0) <= cap && forall t :: 1 <= t < step ==> Samples(n, t, 0) > cap
  }

  lemma StepIsLeast(n: nat, maxPoints: nat)
    ensures LeastStep(n, if maxPoints == 0 then 1 else maxPoints, StepFor(n, maxPoints))
  {
    var cap, step := if maxPoints == 0 then 1 else maxPoints, StepFor(n, maxPoints);
    SamplesFill(n, step, 0);
    SampleBound(n, maxPoints, step, Samples(n, step, 0));
    forall t | 1 <= t < step ensures Samples(n, t, 0) > cap {
      StepFits(n, maxPoints);
      MulMono(t, step - 1, cap);
      SamplesFill(n, t, 0);
      ManySamples(n, t, cap, Samples(n, t, 0));
    }
  }

  /** The step is the quotient, rounded up. */
  lemma StepFits(n: nat, maxPoints: nat)
    requires n > 0
    ensures var cap := if maxPoints == 0 then 1 else maxPoints;
            (StepFor(n, maxPoints) - 1) * cap < n <= StepFor(n, maxPoints) * cap
  {
    if maxPoints > 0 {
      var step := (n + maxPoints - 1) / maxPoints;
      assert n + maxPoints - 1 == step * maxPoints + (n + maxPoints - 1) % maxPoints;
    }
  }

  lemma ManySamples(n: nat, t: nat, cap: nat, k: nat)
    requires t * cap < n <= k * t
    ensures k > cap
  {
    if k <= cap {
      MulMono(k, cap, t);
    }
  }

  /** The sampled indices are the multiples of the step. */
  lemma {:induction false} SamplesAreMultiples(n: nat, step: nat, i: nat)
    requires step >= 1 && i % step == 0
    ensures Samples(n, step, i) == |set j | i <= j < n && j % step == 0|
    decreases n - i
  {
    var all := set j | i <= j < n && j % step == 0;
    if i < n {
      NextMultiple(i, step);
      SamplesAreMultiples(n, step, i + step);
      assert all == {i} + set j | i + step <= j < n && j % step == 0;
    } else {
      assert all == {};
    }
  }

  lemma NextMultiple(i: nat, step: nat)
    requires step >= 1 && i % step == 0
    ensures (i + step) % step == 0
    ensures forall j :: i < j < i + step ==> j % step != 0
  {
    var q := i / step;
    assert i == q * step;
    forall j | i < j < i + step ensures j % step != 0 {
      Between(q, step, j);
    }
    assert i + step == (q + 1) * step;
    Remainder(q + 1, step);
  }

  lemma Remainder(q: nat, step: nat)
    requires step >= 1
    ensures (q * step) % step == 0
  {
    var k, r := (q * step) / step, (q * step) % step;
    assert q * step == k * step + r;
    if k >= q { MulMono(q, k, step); } else { MulMono(k + 1, q, step); }
  }

  lemma Between(q: nat, step: nat, j: nat)
    requires step >= 1 && q * step < j < q * step + step
    ensures j % step != 0
  {
    if j % step == 0 {
      var k := j / step;
      assert j == k * step;
      if k <= q { MulMono(k, q, step); } else { MulMono(q + 1, k, step); }
    }
  }

  /** The due pings are those at multiples of the step whose moment some anchored window covers. */
  lemma {:induction false} DueAre(rows: seq<Row>, pings: seq<SignedPing>, step: nat, i: nat, q: SignedPing)
    requires step >= 1 && i % step == 0
    ensures q in Due(rows, pings, step, i) <==>
              && (exists j :: i <= j < |pings| && j % step == 0 && pings[j] == q)
              && (exists k :: 0 <= k < |rows| && rows[k].batchIndex.Some? && rows[k].fromTs <= q.ts <= rows[k].toTs)
    decreases |pings| - i
  {
    LatestCoveringIff(rows, q.ts);
    if i < |pings| {
      NextMultiple(i, step);
      DueAre(rows, pings, step, i + step, q);
    }
  }

  lemma LatestCoveringIff(rows: seq<Row>, ts: UInt64)
    ensures LatestCovering(rows, ts).Some? <==>
              exists k :: 0 <= k < |rows| && rows[k].batchIndex.Some? && rows[k].fromTs <= ts <= rows[k].toTs
  {
    if LatestCovering(rows, ts).None? {
      assert forall i :: 0 <= i < |rows| ==> !Covers(rows[i], ts);
    }
  }

  lemma FewSamples(taken: nat, k: nat, step: nat, n: nat)
    requires taken > 0 && (taken - 1) * step < n <= k * step
    ensures taken <= k
  {
    if taken > k {
      MulMono(k, taken - 1, step);
    }
  }

  lemma MulMono(a: nat, b: nat, step: nat)
    requires a <= b
    ensures a * step <= b * step
  {
    assert (b - a) * step >= 0;
  }

  /** The reduce over the batch: the first ping at minimal distance. */
  method NearestPing(pings: seq<SignedPing>, ts: UInt64) returns (best: SignedPing)
    requires |pings| > 0
    ensures best == Nearest(pings[0], pings, ts)
  {
    best := pings[0];
    for i := 0 to |pings|
      invariant Nearest(pings[0], pings, ts) == Nearest(best, pings[i..], ts)
    {
      if Distance(pings[i], ts) < Distance(best, ts) {
        best := pings[i];
      }
    }
  }

  lemma LeafPresent(h: Hash, pings: seq<SignedPing>, target: SignedPing)
    requires target in pings
    ensures exists i :: 0 <= i < |pings| && Leaves(h, pings)[i] == PingLeaf(h, target)
  {
    var i :| 0 <= i < |pings| && pings[i] == target;
    assert Leaves(h, pings)[i] == PingLeaf(h, target);
  }

  /** An answer holds exactly the archived pings of its range. */
  lemma AnsweredIsArchived(answer: seq<SignedPing>, archive: seq<SignedPing>, lo: int, hi: int)
    requires Answers(answer, archive, lo, hi)
    ensures forall p :: p in answer <==> p in archive && lo <= p.ts <= hi
  {
    forall p ensures p in answer <==> p in archive && lo <= p.ts <= hi {
      assert p in answer <==> p in multiset(answer);
      assert p in Select(archive, lo, hi) <==> p in multiset(Select(archive, lo, hi));
      SelectMembers(archive, lo, hi, p);
    }
  }

  lemma StepSize(n: nat, maxPoints: nat)
    ensures StepFor(n, maxPoints) >= 2 <==> n > Cap(maxPoints)
  {
    if n > 0 && maxPoints > 0 {
      var step := (n + maxPoints - 1) / maxPoints;
      assert n + maxPoints - 1 == step * maxPoints + (n + maxPoints - 1) % maxPoints;
      if step >= 2 {
        MulMono(2, step, maxPoints);
      } else {
        MulMono(step, 1, maxPoints);
      }
    }
  }

  /** Something was left out exactly when the period holds more pings than asked for. */
  lemma TruncatedIff(n: nat, maxPoints: nat, step: nat, taken: nat)
    requires step == StepFor(n, maxPoints)
    requires n <= taken * step && (taken == 0 || (taken - 1) * step < n)
    ensures taken < n <==> n > Cap(maxPoints)
  {
    StepSize(n, maxPoints);
    if step >= 2 && taken > 0 {
      MulMono(2, step, taken - 1);
    }
    if step < 2 {
      MulMono(step, 1, taken);
    }
  }
}
