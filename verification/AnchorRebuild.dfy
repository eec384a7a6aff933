/**
 * The proof service rebuilds a batch from the archive by time range. It gets back the
 * batched pings, and its proof verifies on chain, as long as nothing is archived into a
 * closed window and no two pings share a timestamp. AnchorTies says exactly what happens
 * without either.
 */
module AnchorRebuild {
  import opened Wrappers
  import opened ByteStrings
  import opened Sorting
  import opened Telemetry
  import opened Merkle
  import opened AnchorPipeline
  import opened AnchorAgreement

  /** The archived pings of a closed window, in timestamp order. */
  function Window(archive: seq<SignedPing>, r: Row): seq<SignedPing> {
    Sort(ByTs, Select(archive, r.fromTs, r.toTs))
  }

  /** The archive still holds exactly the pings this row's root commits to. */
  ghost predicate Rebuilds(h: Hash, archive: seq<SignedPing>, r: Row) {
    var w := Window(archive, r);
    |w| > 0 && |w| == r.pingCount && Root(h, Leaves(h, w)) == r.root
  }

  ghost predicate AllRebuild(h: Hash, t: Trip) {
    DistinctTs(t.archive) && forall k :: 0 <= k < |t.rows| ==> Rebuilds(h, t.archive, t.rows[k])
  }

  /** No ping arrives late, into a closed window, or repeats a timestamp. */
  ghost predicate OnTime(t: Trip, e: Event) {
    e.Archived? ==>
      && (forall i :: 0 <= i < |t.archive| ==> t.archive[i].ts != e.ping.ts)
      && (forall k :: 0 <= k < |t.rows| ==> !(t.rows[k].fromTs <= e.ping.ts <= t.rows[k].toTs))
  }

  ghost predicate AllOnTime(h: Hash, t: Trip, es: seq<Event>)
    requires PossibleRun(h, t, es)
    decreases |es|
  {
    |es| == 0 || (OnTime(t, es[0]) && AllOnTime(h, Step(h, t, es[0]), es[1..]))
  }

  lemma WindowAnswers(archive: seq<SignedPing>, r: Row)
    ensures Answers(Window(archive, r), archive, r.fromTs, r.toTs)
  {
    ByTsIsPreorder();
    SortSpec(ByTs, Select(archive, r.fromTs, r.toTs));
  }

  lemma {:induction false} SelectAppend(pings: seq<SignedPing>, p: SignedPing, lo: int, hi: int)
    requires !(lo <= p.ts <= hi)
    ensures Select(pings + [p], lo, hi) == Select(pings, lo, hi)
  {
    if |pings| > 0 {
      SelectAppend(pings[1..], p, lo, hi);
      assert (pings + [p])[1..] == pings[1..] + [p];
    }
  }

  /** At close time the range query over the new window returns the batched pings. */
  lemma ClosedWindowIsBatch(t: Trip, drained: seq<SignedPing>, upTo: UInt64)
    requires RowsOrdered(t.rows) && DistinctTs(t.archive)
    requires Answers(drained, t.archive, 0, upTo)
    requires |Usable(t.rows, drained)| > 0
    ensures var usable := Usable(t.rows, drained);
            Answers(usable, t.archive, usable[0].ts, usable[|usable| - 1].ts)
  {
    UsableSorted(t.rows, drained);
    var usable := Usable(t.rows, drained);
    var lo, hi := usable[0].ts, usable[|usable| - 1].ts;
    forall p ensures multiset(usable)[p] == multiset(Select(t.archive, lo, hi))[p] {
      SelectCount(t.archive, lo, hi, p);
      SelectCount(t.archive, 0, upTo, p);
      UsableCount(t.rows, drained, p);
      if p in usable {
        WithinEnds(usable, p);
      } else if lo <= p.ts <= hi {
        UsableInside(t, drained, upTo, p);
      }
    }
    assert multiset(usable) == multiset(Select(t.archive, lo, hi));
  }

  lemma WithinEnds(s: seq<SignedPing>, p: SignedPing)
    requires Sorted(ByTs, s) && p in s
    ensures s[0].ts <= p.ts <= s[|s| - 1].ts
  {
    var i :| 0 <= i < |s| && s[i] == p;
    assert (i > 0 ==> ByTs(s[0], p)) && (i < |s| - 1 ==> ByTs(p, s[|s| - 1]));
  }

  /** A ping between the batch's ends that the batch lacks was not archived. */
  lemma UsableInside(t: Trip, drained: seq<SignedPing>, upTo: UInt64, p: SignedPing)
    requires RowsOrdered(t.rows)
    requires Answers(drained, t.archive, 0, upTo)
    requires |Usable(t.rows, drained)| > 0
    requires var usable := Usable(t.rows, drained);
             p !in usable && usable[0].ts <= p.ts <= usable[|usable| - 1].ts
    ensures multiset(t.archive)[p] == 0
  {
    var usable := Usable(t.rows, drained);
    var last := usable[|usable| - 1];
    UsableCount(t.rows, drained, p);
    UsableCount(t.rows, drained, last);
    SelectCount(t.archive, 0, upTo, p);
    SelectCount(t.archive, 0, upTo, last);
    assert last in multiset(usable);
    if |t.rows| > 0 {
      UsableAfterLast(t.rows, drained, usable[0]);
    }
  }

  lemma CloseKeepsRebuild(h: Hash, t: Trip, drained: seq<SignedPing>, upTo: UInt64)
    requires RowsOrdered(t.rows) && AllRebuild(h, t)
    requires Answers(drained, t.archive, 0, upTo)
    ensures AllRebuild(h, Close(h, t, drained))
  {
    var usable := Usable(t.rows, drained);
    if |usable| > 0 {
      var r := BatchRow(h, usable);
      ClosedWindowIsBatch(t, drained, upTo);
      WindowAnswers(t.archive, r);
      AnswerUnique(usable, Window(t.archive, r), t.archive, r.fromTs, r.toTs);
    }
  }

  lemma OnTimePingKeepsRebuild(h: Hash, t: Trip, p: SignedPing)
    requires OnTime(t, Archived(p)) && AllRebuild(h, t)
    ensures AllRebuild(h, t.(archive := t.archive + [p]))
  {
    forall k | 0 <= k < |t.rows| ensures Rebuilds(h, t.archive + [p], t.rows[k]) {
      assert Rebuilds(h, t.archive, t.rows[k]);
      SelectAppend(t.archive, p, t.rows[k].fromTs, t.rows[k].toTs);
    }
  }

  lemma WorkKeepsRebuild(h: Hash, t: Trip, i: nat, now: nat, a: Attempt)
    requires i < |t.jobs| && AllRebuild(h, t)
    ensures AllRebuild(h, Work(t, i, now, a))
  {
    MarkOldestSpec(t.rows, |t.chain|);
    var u := Work(t, i, now, a);
    forall k | 0 <= k < |u.rows| ensures Rebuilds(h, u.archive, u.rows[k]) {
      assert Rebuilds(h, t.archive, t.rows[k]);
      assert Window(u.archive, u.rows[k]) == Window(t.archive, t.rows[k]);
    }
  }

  lemma StepKeepsRebuild(h: Hash, t: Trip, e: Event)
    requires Possible(t, e) && OnTime(t, e)
    requires RowsOrdered(t.rows) && AllRebuild(h, t)
    ensures AllRebuild(h, Step(h, t, e))
  {
    match e
    case Archived(p) => OnTimePingKeepsRebuild(h, t, p);
    case Swept(drained) =>
      var upTo: UInt64 :| Answers(drained, t.archive, 0, upTo);
      CloseKeepsRebuild(h, t, drained, upTo);
      assert Sweep(h, t, drained).rows == Close(h, t, drained).rows;
    case Worked(i, now, a) => WorkKeepsRebuild(h, t, i, now, a);
    case GaveUp(_) =>
  }

  /** Both guarantees over any run in creation order with no late pings. */
  lemma {:induction false} RunKeepsRebuild(h: Hash, t: Trip, es: seq<Event>)
    requires PossibleRun(h, t, es) && AllOnTime(h, t, es)
    requires forall e :: e in es ==> InOrder(e)
    requires Lockstep(t) && AllRebuild(h, t)
    ensures Lockstep(Run(h, t, es)) && AllRebuild(h, Run(h, t, es))
    decreases |es|
  {
    if |es| > 0 {
      StepKeepsLockstep(h, t, es[0]);
      StepKeepsRebuild(h, t, es[0]);
      RunKeepsRebuild(h, Step(h, t, es[0]), es[1..]);
    }
  }

  /** In particular from the first ping of a trip on. */
  lemma NewTripStaysInOrder(h: Hash, es: seq<Event>)
    requires PossibleRun(h, EMPTY_TRIP, es) && AllOnTime(h, EMPTY_TRIP, es)
    requires forall e :: e in es ==> InOrder(e)
    ensures Lockstep(Run(h, EMPTY_TRIP, es)) && AllRebuild(h, Run(h, EMPTY_TRIP, es))
  {
    RunKeepsRebuild(h, EMPTY_TRIP, es);
  }

  // ---------------------------------------------------------------- proving a moment

  predicate Covers(r: Row, ts: UInt64) {
    r.batchIndex.Some? && r.fromTs <= ts <= r.toTs
  }

  /** The most recently created anchored row whose window contains `ts`. */
  function LatestCovering(rows: seq<Row>, ts: UInt64): (k: Option<nat>)
    ensures k.Some? ==> k.value < |rows| && Covers(rows[k.value], ts)
    ensures k.None? ==> forall i :: 0 <= i < |rows| ==> !Covers(rows[i], ts)
  {
    if |rows| == 0 then None
    else if Covers(rows[|rows| - 1], ts) then Some(|rows| - 1)
    else LatestCovering(rows[..|rows| - 1], ts)
  }

  function Distance(p: SignedPing, ts: UInt64): nat {
    if p.ts < ts then ts - p.ts else p.ts - ts
  }

  /** The reduce that keeps the first ping nearest to `ts`. */
  function Nearest(best: SignedPing, pings: seq<SignedPing>, ts: UInt64): SignedPing
    decreases |pings|
  {
    if |pings| == 0 then best
    else Nearest(if Distance(pings[0], ts) < Distance(best, ts) then pings[0] else best, pings[1..], ts)
  }

  lemma {:induction false} NearestSpec(best: SignedPing, pings: seq<SignedPing>, ts: UInt64)
    ensures Nearest(best, pings, ts) == best || Nearest(best, pings, ts) in pings
    ensures Distance(Nearest(best, pings, ts), ts) <= Distance(best, ts)
    ensures forall p :: p in pings ==> Distance(Nearest(best, pings, ts), ts) <= Distance(p, ts)
    decreases |pings|
  {
    if |pings| > 0 {
      var b := if Distance(pings[0], ts) < Distance(best, ts) then pings[0] else best;
      NearestSpec(b, pings[1..], ts);
      assert pings == [pings[0]] + pings[1..];
    }
  }

  function Abs(x: int): nat {
    if x < 0 then -x else x
  }

  function ItemAt(best: SignedPing, pings: seq<SignedPing>, i: nat): SignedPing
    requires i <= |pings|
  {
    if i == 0 then best else pings[i - 1]
  }

  /** Of best and then the pings, the i-th differs least from the moment, and is the first to. */
  ghost predicate FirstNearest(best: SignedPing, pings: seq<SignedPing>, ts: UInt64, i: nat)
    requires i <= |pings|
  {
    && (forall j: nat :: j <= |pings| ==> Abs(ItemAt(best, pings, i).ts - ts) <= Abs(ItemAt(best, pings, j).ts - ts))
    && (forall j: nat :: j < i ==> Abs(ItemAt(best, pings, i).ts - ts) < Abs(ItemAt(best, pings, j).ts - ts))
  }

  /** The reduce keeps the first ping whose timestamp differs least from the moment. */
  lemma {:induction false} NearestIsFirst(best: SignedPing, pings: seq<SignedPing>, ts: UInt64) returns (i: nat)
    ensures i <= |pings| && Nearest(best, pings, ts) == ItemAt(best, pings, i) && FirstNearest(best, pings, ts, i)
    decreases |pings|
  {
    if |pings| == 0 {
      i := 0;
    } else {
      var taken := Abs(pings[0].ts - ts) < Abs(best.ts - ts);
      var next := if taken then pings[0] else best;
      var k := NearestIsFirst(next, pings[1..], ts);
      i := if k == 0 && !taken then 0 else k + 1;
      forall j: nat | j <= |pings|
        ensures Abs(ItemAt(best, pings, i).ts - ts) <= Abs(ItemAt(best, pings, j).ts - ts)
        ensures j < i ==> Abs(ItemAt(best, pings, i).ts - ts) < Abs(ItemAt(best, pings, j).ts - ts)
      {
        OneTurnEarlier(best, pings, ts, taken, k, j);
      }
    }
  }

  /** What is first and nearest after one turn was so before it. */
  lemma OneTurnEarlier(best: SignedPing, pings: seq<SignedPing>, ts: UInt64, taken: bool, k: nat, j: nat)
    requires k < |pings| && j <= |pings|
    requires taken <==> Abs(pings[0].ts - ts) < Abs(best.ts - ts)
    requires FirstNearest(if taken then pings[0] else best, pings[1..], ts, k)
    ensures var i := if k == 0 && !taken then 0 else k + 1;
            && Abs(ItemAt(best, pings, i).ts - ts) <= Abs(ItemAt(best, pings, j).ts - ts)
            && (j < i ==> Abs(ItemAt(best, pings, i).ts - ts) < Abs(ItemAt(best, pings, j).ts - ts))
  {
    var next := if taken then pings[0] else best;
    var least := Abs(ItemAt(next, pings[1..], k).ts - ts);
    var before := if j <= 1 then 0 else j - 1;
    ShiftedItem(best, pings, next, k, before);
    assert least <= Abs(ItemAt(next, pings[1..], before).ts - ts);
    assert least <= Abs(ItemAt(next, pings[1..], 0).ts - ts);
    assert before < k ==> least < Abs(ItemAt(next, pings[1..], before).ts - ts);
  }

  lemma ShiftedItem(best: SignedPing, pings: seq<SignedPing>, next: SignedPing, k: nat, j: nat)
    requires |pings| > 0 && k < |pings| && j < |pings|
    ensures k > 0 ==> ItemAt(next, pings[1..], k) == pings[k] == ItemAt(best, pings, k + 1)
    ensures j > 0 ==> ItemAt(next, pings[1..], j) == pings[j] == ItemAt(best, pings, j + 1)
  {
  }

  /** A rebuilt answer over an anchored row of a trip in good order is the batch itself. */
  lemma RebuiltIsBatch(h: Hash, t: Trip, k: nat, answer: seq<SignedPing>)
    requires AllRebuild(h, t) && k < |t.rows|
    requires Answers(answer, t.archive, t.rows[k].fromTs, t.rows[k].toTs)
    ensures |answer| == t.rows[k].pingCount > 0
    ensures Root(h, Leaves(h, answer)) == t.rows[k].root
  {
    WindowAnswers(t.archive, t.rows[k]);
    AnswerUnique(answer, Window(t.archive, t.rows[k]), t.archive, t.rows[k].fromTs, t.rows[k].toTs);
    assert Rebuilds(h, t.archive, t.rows[k]);
  }

  /** End to end: the proof built for any moment an anchored batch covers, whichever equal
      leaf the library picks, is accepted against the on-chain batch. */
  lemma ProvedMomentVerifies(h: Hash, t: Trip, ts: UInt64, answer: seq<SignedPing>, pick: nat)
    requires Lockstep(t) && AllRebuild(h, t)
    requires LatestCovering(t.rows, ts).Some?
    requires var r := t.rows[LatestCovering(t.rows, ts).value];
             Answers(answer, t.archive, r.fromTs, r.toTs)
    requires pick < |answer|
    requires Leaves(h, answer)[pick] == PingLeaf(h, Nearest(answer[0], answer, ts))
    ensures var k := LatestCovering(t.rows, ts).value;
            var target := Nearest(answer[0], answer, ts);
            && t.rows[k].batchIndex == Some(k) && k < |t.chain|
            && target in answer
            && (forall p :: p in answer ==> Distance(target, ts) <= Distance(p, ts))
            && Fold(h, PingLeaf(h, target), ProofAt(h, Leaves(h, answer), pick)) == t.chain[k].root
  {
    var k := LatestCovering(t.rows, ts).value;
    AnchoredRowsArePrefix(t);
    RebuiltIsBatch(h, t, k, answer);
    NearestSpec(answer[0], answer, ts);
    ProofFoldsToRoot(h, Leaves(h, answer), pick);
  }

  /** Only one anchored window can cover a moment, so "latest created" never matters. */
  lemma CoveringRowUnique(t: Trip, ts: UInt64, j: nat, k: nat)
    requires Lockstep(t) && j < |t.rows| && k < |t.rows|
    requires Covers(t.rows[j], ts) && Covers(t.rows[k], ts)
    ensures j == k
  {
  }

  /** Once a rebuilt answer holds a ping the batch did not commit to, a proof that still
      verifies against the batch's root exhibits a hash collision. */
  lemma LatePingFailsOrCollides(h: Hash, batch: seq<SignedPing>, answer: seq<SignedPing>, late: nat, pick: nat)
    requires |batch| > 0 && late < |answer| && pick < |answer|
    requires !Committed(answer[late], set p | p in batch)
    requires Fold(h, Leaves(h, answer)[pick], ProofAt(h, Leaves(h, answer), pick)) == Root(h, Leaves(h, batch))
    ensures Collision(h, Extract(h, answer[late], ProofAt(h, Leaves(h, answer), late), BuildTree(batch)))
  {
    ProofFoldsToRoot(h, Leaves(h, answer), pick);
    ProofFoldsToRoot(h, Leaves(h, answer), late);
    AcceptedPingCommittedOrCollision(h, batch, answer[late], ProofAt(h, Leaves(h, answer), late));
  }
}
