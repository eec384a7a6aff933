/**
 * Do the database rows of a trip name the on-chain batches that hold their roots?
 * First the exact answer for runs of any shape, then the guarantee for runs whose jobs
 * are worked in creation order with anchor and mark as one step.
 */
module AnchorAgreement {
  import opened Wrappers
  import opened ByteStrings
  import opened Sorting
  import opened Telemetry
  import opened AnchorPipeline
  import TripLog

  predicate SameBatch(root: Bytes32, fromTs: UInt64, toTs: UInt64, b: TripLog.Batch) {
    b.root == root && b.fromTs == fromTs && b.toTs == toTs
  }

  /** Every anchored row names a chain batch with its own root and window. */
  ghost predicate Agree(t: Trip) {
    forall k :: 0 <= k < |t.rows| && t.rows[k].batchIndex.Some? ==>
      var i := t.rows[k].batchIndex.value;
      i < |t.chain| && SameBatch(t.rows[k].root, t.rows[k].fromTs, t.rows[k].toTs, t.chain[i])
  }

  ghost predicate IndexesExist(t: Trip) {
    forall k :: 0 <= k < |t.rows| && t.rows[k].batchIndex.Some? ==> t.rows[k].batchIndex.value < |t.chain|
  }

  /** The row markAnchored would pick. */
  function OldestUnanchored(rows: seq<Row>): (r: Option<nat>)
    ensures r.Some? ==> r.value < |rows| && rows[r.value].batchIndex.None?
    ensures forall k :: 0 <= k < (if r.Some? then r.value else |rows|) ==> rows[k].batchIndex.Some?
  {
    if |rows| == 0 then None
    else if rows[0].batchIndex.None? then Some(0)
    else
      var rest := OldestUnanchored(rows[1..]);
      if rest.None? then None else Some(rest.value + 1)
  }

  lemma {:induction false} MarkOldestSpec(rows: seq<Row>, index: nat)
    ensures var k := OldestUnanchored(rows);
            MarkOldest(rows, index) ==
            if k.None? then rows else rows[k.value := rows[k.value].(batchIndex := Some(index))]
  {
    if |rows| > 0 && rows[0].batchIndex.Some? {
      MarkOldestSpec(rows[1..], index);
      assert rows == [rows[0]] + rows[1..];
    }
  }

  /** What the worker could check before it anchors and marks: the row that would receive
      the index is the row of the job in hand. */
  predicate MarkFits(t: Trip, e: Event)
    requires e.Worked? ==> e.i < |t.jobs|
  {
    e.Worked? && e.attempt.Completed? ==>
      var job := t.jobs[e.i];
      var oldest := OldestUnanchored(t.rows);
      TripLog.Append(t.chain, job.root, job.fromTs, job.toTs, e.now).Ok? && oldest.Some? ==>
        var row := t.rows[oldest.value];
        row.root == job.root && row.fromTs == job.fromTs && row.toTs == job.toTs
  }

  lemma SweepOnlyAddsUnanchored(h: Hash, t: Trip, drained: seq<SignedPing>)
    ensures var s := Sweep(h, t, drained);
            && s.chain == t.chain && s.archive == t.archive
            && |t.rows| <= |s.rows| <= |t.rows| + 1
            && s.rows[..|t.rows|] == t.rows
            && (|s.rows| > |t.rows| ==> s.rows[|t.rows|].batchIndex.None?)
  {
  }

  lemma StepAgreesIff(h: Hash, t: Trip, e: Event)
    requires Possible(t, e) && IndexesExist(t)
    ensures IndexesExist(Step(h, t, e))
    ensures Agree(Step(h, t, e)) <==> Agree(t) && MarkFits(t, e)
  {
    match e
    case Archived(p) =>
    case GaveUp(i) =>
    case Swept(drained) =>
      SweepOnlyAddsUnanchored(h, t, drained);
      var s := Sweep(h, t, drained);
      forall k | 0 <= k < |t.rows| ensures s.rows[k] == t.rows[k] {
        assert s.rows[..|t.rows|][k] == s.rows[k];
      }
    case Worked(i, now, a) =>
      WorkAgreesIff(t, i, now, a);
  }

  lemma WorkAgreesIff(t: Trip, i: nat, now: nat, a: Attempt)
    requires i < |t.jobs| && IndexesExist(t)
    ensures IndexesExist(Work(t, i, now, a))
    ensures Agree(Work(t, i, now, a)) <==> Agree(t) && MarkFits(t, Worked(i, now, a))
  {
    var job := t.jobs[i];
    var r := TripLog.Append(t.chain, job.root, job.fromTs, job.toTs, now);
    if r.Ok? && !a.Unsent? {
      ChainGrows(t, r.value);
      if a.Completed? {
        MarkAgreesIff(t.(chain := r.value), |t.chain|, job);
      }
    }
  }

  /** Appending to the chain list neither makes nor breaks agreement of existing rows. */
  lemma ChainGrows(t: Trip, chain: seq<TripLog.Batch>)
    requires IndexesExist(t) && t.chain <= chain
    ensures IndexesExist(t.(chain := chain))
    ensures Agree(t.(chain := chain)) <==> Agree(t)
  {
    var u := t.(chain := chain);
    forall k | 0 <= k < |t.rows| && t.rows[k].batchIndex.Some?
      ensures u.chain[t.rows[k].batchIndex.value] == t.chain[t.rows[k].batchIndex.value]
    {
    }
  }

  lemma MarkAgreesIff(t: Trip, index: nat, job: Job)
    requires IndexesExist(t) && index < |t.chain|
    requires SameBatch(job.root, job.fromTs, job.toTs, t.chain[index])
    ensures var u := t.(rows := MarkOldest(t.rows, index));
            var oldest := OldestUnanchored(t.rows);
            && IndexesExist(u)
            && (Agree(u) <==> Agree(t) && (oldest.Some? ==>
                  var row := t.rows[oldest.value];
                  row.root == job.root && row.fromTs == job.fromTs && row.toTs == job.toTs))
  {
    MarkOldestSpec(t.rows, index);
    var u := t.(rows := MarkOldest(t.rows, index));
    var oldest := OldestUnanchored(t.rows);
    if oldest.Some? {
      var o := oldest.value;
      assert u.rows[o].batchIndex == Some(index);
      if Agree(u) {
        forall k | 0 <= k < |t.rows| && t.rows[k].batchIndex.Some?
          ensures t.rows[k].batchIndex.value < |t.chain|
               && SameBatch(t.rows[k].root, t.rows[k].fromTs, t.rows[k].toTs, t.chain[t.rows[k].batchIndex.value])
        {
          assert k != o && u.rows[k] == t.rows[k];
        }
      }
    }
  }

  ghost predicate AllMarksFit(h: Hash, t: Trip, es: seq<Event>)
    requires PossibleRun(h, t, es)
    decreases |es|
  {
    |es| == 0 || (MarkFits(t, es[0]) && AllMarksFit(h, Step(h, t, es[0]), es[1..]))
  }

  /** Over any run, in any job order and with marks lost or jobs dropped, the database
      agrees with the chain exactly when every completed job marked its own row. */
  lemma {:induction false} RunAgreesIff(h: Hash, t: Trip, es: seq<Event>)
    requires PossibleRun(h, t, es) && IndexesExist(t)
    ensures Agree(Run(h, t, es)) <==> Agree(t) && AllMarksFit(h, t, es)
    decreases |es|
  {
    if |es| > 0 {
      StepAgreesIff(h, t, es[0]);
      RunAgreesIff(h, Step(h, t, es[0]), es[1..]);
    }
  }

  // ---------------------------------------------------------------- in creation order

  /** The hypothesis of the guarantee: oldest job first, anchor and mark as one step. */
  predicate InOrder(e: Event) {
    match e
    case Worked(i, _, a) => i == 0 && !a.MarkLost?
    case GaveUp(_) => false
    case _ => true
  }

  ghost predicate RowsOrdered(rows: seq<Row>) {
    && (forall k :: 0 <= k < |rows| ==> rows[k].fromTs <= rows[k].toTs)
    && (forall j, k :: 0 <= j < k < |rows| ==> rows[j].toTs < rows[k].fromTs)
  }

  predicate RowIsBatch(r: Row, k: nat, b: TripLog.Batch) {
    r.batchIndex == Some(k) && SameBatch(r.root, r.fromTs, r.toTs, b)
  }

  predicate RowIsJob(r: Row, j: Job) {
    r.batchIndex.None? && r.root == j.root && r.fromTs == j.fromTs && r.toTs == j.toTs
  }

  /** The k-th row is the k-th chain batch for as long as the chain goes, and the waiting
      jobs are the remaining rows in order. */
  ghost predicate Lockstep(t: Trip) {
    && RowsOrdered(t.rows)
    && |t.rows| == |t.chain| + |t.jobs|
    && (forall k :: 0 <= k < |t.chain| ==> RowIsBatch(t.rows[k], k, t.chain[k]))
    && (forall k :: 0 <= k < |t.jobs| ==> RowIsJob(t.rows[|t.chain| + k], t.jobs[k]))
    && (forall id :: id in t.jobIds ==> |t.rows| > 0 && id.1 <= t.rows[|t.rows| - 1].toTs)
  }

  lemma {:induction false} LastToTsIsLast(rows: seq<Row>)
    requires RowsOrdered(rows) && |rows| > 0
    ensures LastToTs(rows) == Some(rows[|rows| - 1].toTs)
  {
    if |rows| > 1 {
      LastToTsIsLast(rows[..|rows| - 1]);
      assert rows[|rows| - 2].toTs < rows[|rows| - 1].fromTs;
    }
  }

  /** With rows in order, the next batch draws on the sorted pings after the last row. */
  lemma UsableIsAfterLast(rows: seq<Row>, drained: seq<SignedPing>)
    requires RowsOrdered(rows) && |rows| > 0
    ensures Usable(rows, drained) == Select(Sort(ByTs, drained), rows[|rows| - 1].toTs + 1, TWO_64 - 1)
  {
    LastToTsIsLast(rows);
  }

  lemma SortedDrain(drained: seq<SignedPing>)
    ensures Sorted(ByTs, Sort(ByTs, drained)) && multiset(Sort(ByTs, drained)) == multiset(drained)
  {
    ByTsIsPreorder();
    SortSpec(ByTs, drained);
  }

  lemma UsableSorted(rows: seq<Row>, drained: seq<SignedPing>)
    ensures Sorted(ByTs, Usable(rows, drained))
  {
    SortedDrain(drained);
    if LastToTs(rows).Some? {
      var last: int := LastToTs(rows).value;
      SelectSorted(Sort(ByTs, drained), last + 1, TWO_64 - 1);
    }
  }

  lemma CountAfterLast(rows: seq<Row>, drained: seq<SignedPing>, p: SignedPing)
    requires RowsOrdered(rows) && |rows| > 0
    ensures multiset(Usable(rows, drained))[p] == if p.ts <= rows[|rows| - 1].toTs then 0 else multiset(drained)[p]
  {
    UsableIsAfterLast(rows, drained);
    SelectCount(Sort(ByTs, drained), rows[|rows| - 1].toTs + 1, TWO_64 - 1, p);
    assert multiset(Sort(ByTs, drained))[p] == multiset(drained)[p] by {
      SortedDrain(drained);
    }
  }

  /** The usable pings are the drained ones after the last stored batch. */
  lemma UsableCount(rows: seq<Row>, drained: seq<SignedPing>, p: SignedPing)
    requires RowsOrdered(rows)
    ensures multiset(Usable(rows, drained))[p] ==
            if |rows| > 0 && p.ts <= rows[|rows| - 1].toTs then 0 else multiset(drained)[p]
  {
    if |rows| > 0 {
      CountAfterLast(rows, drained, p);
    } else {
      SortedDrain(drained);
    }
  }

  lemma UsableAfterLast(rows: seq<Row>, drained: seq<SignedPing>, p: SignedPing)
    requires RowsOrdered(rows) && |rows| > 0 && p in Usable(rows, drained)
    ensures p.ts > rows[|rows| - 1].toTs
  {
    UsableCount(rows, drained, p);
    assert p in multiset(Usable(rows, drained));
  }

  /** A closed window starts strictly after every earlier one. */
  lemma CloseKeepsRowsOrdered(h: Hash, t: Trip, drained: seq<SignedPing>)
    requires RowsOrdered(t.rows)
    ensures RowsOrdered(Close(h, t, drained).rows)
  {
    UsableSorted(t.rows, drained);
    var usable := Usable(t.rows, drained);
    if |usable| > 0 {
      assert |usable| > 1 ==> ByTs(usable[0], usable[|usable| - 1]);
      if |t.rows| > 0 {
        UsableAfterLast(t.rows, drained, usable[0]);
        var n := |t.rows|;
        forall j | 0 <= j < n ensures t.rows[j].toTs < usable[0].ts {
          assert j < n - 1 ==> t.rows[j].toTs < t.rows[n - 1].fromTs;
        }
      }
    }
  }

  lemma SweepKeepsLockstep(h: Hash, t: Trip, drained: seq<SignedPing>)
    requires Lockstep(t)
    ensures Lockstep(Sweep(h, t, drained))
  {
    CloseKeepsRowsOrdered(h, t, drained);
    var usable := Usable(t.rows, drained);
    if |usable| > 0 {
      var r := BatchRow(h, usable);
      assert Close(h, t, drained).rows == t.rows + [r];
      EnqueueKeepsLockstep(t, r);
      assert Sweep(h, t, drained) == Enqueue(t.(rows := t.rows + [r]), r);
    }
  }

  /** The new window ends after every window queued before, so its job id is new. */
  lemma EnqueueKeepsLockstep(t: Trip, r: Row)
    requires Lockstep(t) && RowsOrdered(t.rows + [r]) && r.batchIndex.None?
    ensures Lockstep(Enqueue(t.(rows := t.rows + [r]), r))
  {
    var rows, n := t.rows + [r], |t.rows|;
    assert rows[n].fromTs <= rows[n].toTs;
    if n > 0 {
      assert rows[n - 1].toTs < rows[n].fromTs;
    }
    assert (r.fromTs, r.toTs) !in t.jobIds;
  }

  /** The next job in line is always accepted by the contract's window checks. */
  lemma NextJobIsInOrder(t: Trip, now: nat)
    requires Lockstep(t) && |t.jobs| > 0
    ensures var r := TripLog.Append(t.chain, t.jobs[0].root, t.jobs[0].fromTs, t.jobs[0].toTs, now);
            r.Ok? || (r == Err(TripLog.ZeroRoot) && t.jobs[0].root == ZERO32)
  {
    var n := |t.chain|;
    assert RowIsJob(t.rows[n], t.jobs[0]);
    if n > 0 {
      assert RowIsBatch(t.rows[n - 1], n - 1, t.chain[n - 1]);
    }
  }

  lemma OldestIsNextJob(t: Trip)
    requires Lockstep(t) && |t.jobs| > 0
    ensures OldestUnanchored(t.rows) == Some(|t.chain|)
  {
    assert RowIsJob(t.rows[|t.chain| + 0], t.jobs[0]);
  }

  lemma WorkKeepsLockstep(t: Trip, now: nat, a: Attempt)
    requires Lockstep(t) && |t.jobs| > 0 && !a.MarkLost?
    ensures Lockstep(Work(t, 0, now, a))
  {
    NextJobIsInOrder(t, now);
    var job, n := t.jobs[0], |t.chain|;
    var r := TripLog.Append(t.chain, job.root, job.fromTs, job.toTs, now);
    if a.Completed? && r.Ok? {
      OldestIsNextJob(t);
      MarkOldestSpec(t.rows, n);
      assert RowIsJob(t.rows[n + 0], job);
      AdvanceKeepsLockstep(t, r.value);
      assert RemoveJob(t.jobs, 0) == t.jobs[1..];
    }
  }

  lemma AdvanceKeepsLockstep(t: Trip, chain: seq<TripLog.Batch>)
    requires Lockstep(t) && |t.jobs| > 0 && |chain| == |t.chain| + 1 && t.chain <= chain
    requires SameBatch(t.jobs[0].root, t.jobs[0].fromTs, t.jobs[0].toTs, chain[|t.chain|])
    ensures Lockstep(t.(chain := chain, jobs := t.jobs[1..],
                        rows := t.rows[|t.chain| := t.rows[|t.chain|].(batchIndex := Some(|t.chain|))]))
  {
    var n := |t.chain|;
    var rows := t.rows[n := t.rows[n].(batchIndex := Some(n))];
    assert RowIsJob(t.rows[n + 0], t.jobs[0]);
    forall k | 0 <= k < |chain| ensures RowIsBatch(rows[k], k, chain[k]) {
      assert k < n ==> chain[k] == t.chain[k] && RowIsBatch(t.rows[k], k, t.chain[k]);
    }
    forall k | 0 <= k < |t.jobs[1..]| ensures RowIsJob(rows[|chain| + k], t.jobs[1..][k]) {
      assert RowIsJob(t.rows[n + (k + 1)], t.jobs[k + 1]);
    }
  }

  /** Anchored rows form a prefix, each naming the chain batch at its own position. */
  lemma AnchoredRowsArePrefix(t: Trip)
    requires Lockstep(t)
    ensures forall k :: 0 <= k < |t.rows| ==>
              (t.rows[k].batchIndex.Some? <==> k < |t.chain|)
              && (k < |t.chain| ==> RowIsBatch(t.rows[k], k, t.chain[k]))
  {
    forall k | |t.chain| <= k < |t.rows| ensures t.rows[k].batchIndex.None? {
      assert RowIsJob(t.rows[|t.chain| + (k - |t.chain|)], t.jobs[k - |t.chain|]);
    }
  }

  lemma StepKeepsLockstep(h: Hash, t: Trip, e: Event)
    requires Possible(t, e) && InOrder(e) && Lockstep(t)
    ensures Lockstep(Step(h, t, e))
  {
    match e
    case Archived(p) =>
    case Swept(drained) => SweepKeepsLockstep(h, t, drained);
    case Worked(i, now, a) => WorkKeepsLockstep(t, now, a);
    case GaveUp(_) =>
  }

  /** Over any run in creation order: the k-th stored and k-th on-chain batch agree, the
      anchored rows are exactly the first |chain| rows, and the windows are disjoint. */
  lemma {:induction false} InOrderRunKeepsLockstep(h: Hash, t: Trip, es: seq<Event>)
    requires PossibleRun(h, t, es) && Lockstep(t)
    requires forall e :: e in es ==> InOrder(e)
    ensures Lockstep(Run(h, t, es))
    ensures Agree(Run(h, t, es))
    decreases |es|
  {
    if |es| > 0 {
      StepKeepsLockstep(h, t, es[0]);
      InOrderRunKeepsLockstep(h, Step(h, t, es[0]), es[1..]);
    } else {
      AnchoredRowsArePrefix(t);
    }
  }

  // ---------------------------------------------------------------- one attempt

  /** What an attempt can do, written out. A root that is not zero and a window after the last one
      on chain is appended there; the job then leaves the queue and the oldest unmarked row gets
      the new index, unless the mark is lost. A window that is not after the last one ends the job
      without any other effect. Anything else leaves everything as it is. */
  lemma AttemptMeans(t: Trip, i: nat, now: nat, a: Attempt)
    requires i < |t.jobs|
    ensures var job, y, n := t.jobs[i], Work(t, i, now, a), |t.chain|;
            var sound := job.root != ZERO32 && job.fromTs <= job.toTs;
            var after := n == 0 || job.fromTs > t.chain[n - 1].toTs;
            var without := t.jobs[..i] + t.jobs[i + 1..];
            && y.archive == t.archive && y.jobIds == t.jobIds
            && (a == Unsent || !sound ==> y == t)
            && (a != Unsent && sound && !after ==> y == t.(jobs := without))
            && (a != Unsent && sound && after ==>
                  && y.chain == t.chain + [TripLog.Batch(job.root, job.fromTs, job.toTs, now % 0x1_0000_0000_0000_0000)]
                  && (a == MarkLost ==> y.jobs == t.jobs && y.rows == t.rows)
                  && (a == Completed ==> y.jobs == without && y.rows == MarkOldest(t.rows, n)))
  {
  }

  // ---------------------------------------------------------------- without the hypothesis

  const ONES: Bytes32 := [
    1, 1, 1, 1, 1, 1, 1, 1, 1, 1, 1, 1, 1, 1, 1, 1,
    1, 1, 1, 1, 1, 1, 1, 1, 1, 1, 1, 1, 1, 1, 1, 1]

  /** A hash without zero roots; which one does not matter. */
  function AllOnes(b: Bytes): Bytes32 {
    ONES
  }

  function PingAt(ts: UInt64): SignedPing {
    SignedPing(0, [], 0, 0, ts, 0, [], "", None, 0, ZERO_ADDRESS)
  }

  function RowAt(ts: UInt64, index: Option<nat>): Row {
    Row(ONES, ts, ts, 1, index)
  }

  function JobAt(ts: UInt64): Job {
    Job(ONES, ts, ts)
  }

  function BatchAt(ts: UInt64): TripLog.Batch {
    TripLog.Batch(ONES, ts, ts, 0)
  }

  const WAITING := Trip([PingAt(1), PingAt(2)], [RowAt(1, None), RowAt(2, None)],
                        [JobAt(1), JobAt(2)], {(1, 1), (2, 2)}, [])

  const FINISHED := Trip([PingAt(1), PingAt(2)], [RowAt(1, Some(1)), RowAt(2, None)],
                         [], {(1, 1), (2, 2)}, [BatchAt(1), BatchAt(2)])

  const FIRST_SWEEP: seq<Event> := [Archived(PingAt(1)), Swept([PingAt(1)])]

  const SECOND_SWEEP: seq<Event> := [Archived(PingAt(2)), Swept([PingAt(1), PingAt(2)])]

  const THREE_ATTEMPTS: seq<Event> := [Worked(0, 0, MarkLost), Worked(0, 0, Completed), Worked(0, 0, Completed)]

  /** A run from a trip's first ping that breaks agreement: two pings, two batches; the first
      job anchors but its mark is lost, its retry is swallowed as TimeOverlap, and the second
      job completes. The second batch's index lands on the first row, the second row stays
      unanchored, and nothing is left to retry. */
  lemma LostMarkBreaksAgreement()
    ensures PossibleRun(AllOnes, EMPTY_TRIP, FIRST_SWEEP + SECOND_SWEEP + THREE_ATTEMPTS)
    ensures var t := Run(AllOnes, EMPTY_TRIP, FIRST_SWEEP + SECOND_SWEEP + THREE_ATTEMPTS);
            t.jobs == [] && !Agree(t)
  {
    TwoSweeps();
    ThreeAttempts();
    RunConcat(AllOnes, EMPTY_TRIP, FIRST_SWEEP + SECOND_SWEEP, THREE_ATTEMPTS);
    assert FINISHED.rows[0].batchIndex == Some(1);
  }

  /** One more event in front of a run. */
  lemma RunCons(h: Hash, t: Trip, e: Event, u: Trip, es: seq<Event>)
    requires Possible(t, e) && Step(h, t, e) == u && PossibleRun(h, u, es)
    ensures PossibleRun(h, t, [e] + es) && Run(h, t, [e] + es) == Run(h, u, es)
  {
    assert ([e] + es)[1..] == es;
  }

  lemma {:induction false} RunConcat(h: Hash, t: Trip, es: seq<Event>, more: seq<Event>)
    requires PossibleRun(h, t, es) && PossibleRun(h, Run(h, t, es), more)
    ensures PossibleRun(h, t, es + more) && Run(h, t, es + more) == Run(h, Run(h, t, es), more)
    decreases |es|
  {
    if |es| == 0 {
      assert es + more == more;
    } else {
      var u := Step(h, t, es[0]);
      RunConcat(h, u, es[1..], more);
      RunCons(h, t, es[0], u, es[1..] + more);
      assert [es[0]] + (es[1..] + more) == es + more;
    }
  }

  lemma ThreeAttempts()
    ensures PossibleRun(AllOnes, WAITING, THREE_ATTEMPTS) && Run(AllOnes, WAITING, THREE_ATTEMPTS) == FINISHED
  {
    var lost := WAITING.(chain := [BatchAt(1)]);
    var retried := lost.(jobs := [JobAt(2)]);
    FirstAttempt();
    Retry();
    SecondJob();
    RunCons(AllOnes, retried, Worked(0, 0, Completed), FINISHED, []);
    RunCons(AllOnes, lost, Worked(0, 0, Completed), retried, [Worked(0, 0, Completed)] + []);
    RunCons(AllOnes, WAITING, Worked(0, 0, MarkLost), lost, [Worked(0, 0, Completed)] + ([Worked(0, 0, Completed)] + []));
    assert THREE_ATTEMPTS == [Worked(0, 0, MarkLost)] + ([Worked(0, 0, Completed)] + ([Worked(0, 0, Completed)] + []));
  }

  lemma FirstAttempt()
    ensures Work(WAITING, 0, 0, MarkLost) == WAITING.(chain := [BatchAt(1)])
  {
  }

  lemma Retry()
    ensures Work(WAITING.(chain := [BatchAt(1)]), 0, 0, Completed)
            == WAITING.(chain := [BatchAt(1)], jobs := [JobAt(2)])
  {
    assert RemoveJob(WAITING.jobs, 0) == [JobAt(2)];
  }

  lemma SecondJob()
    ensures Work(WAITING.(chain := [BatchAt(1)], jobs := [JobAt(2)]), 0, 0, Completed) == FINISHED
  {
    assert MarkOldest(WAITING.rows, 1) == [RowAt(1, Some(1)), RowAt(2, None)];
    assert RemoveJob([JobAt(2)], 0) == [];
  }

  const ONE_SWEPT := Trip([PingAt(1)], [RowAt(1, None)], [JobAt(1)], {(1, 1)}, [])

  lemma TwoSweeps()
    ensures PossibleRun(AllOnes, EMPTY_TRIP, FIRST_SWEEP + SECOND_SWEEP)
    ensures Run(AllOnes, EMPTY_TRIP, FIRST_SWEEP + SECOND_SWEEP) == WAITING
  {
    FirstSweep();
    SecondAnswer();
    SecondSweep();
    OneSweep(EMPTY_TRIP, PingAt(1), [PingAt(1)], 1, ONE_SWEPT);
    OneSweep(ONE_SWEPT, PingAt(2), [PingAt(1), PingAt(2)], 2, WAITING);
    RunConcat(AllOnes, EMPTY_TRIP, FIRST_SWEEP, SECOND_SWEEP);
  }

  /** A ping arrives and a sweep takes what it drained. */
  lemma OneSweep(t: Trip, p: SignedPing, drained: seq<SignedPing>, upTo: UInt64, u: Trip)
    requires Answers(drained, t.archive + [p], 0, upTo)
    requires Sweep(AllOnes, t.(archive := t.archive + [p]), drained) == u
    ensures PossibleRun(AllOnes, t, [Archived(p), Swept(drained)])
    ensures Run(AllOnes, t, [Archived(p), Swept(drained)]) == u
  {
    var mid := t.(archive := t.archive + [p]);
    assert Possible(mid, Swept(drained));
    RunCons(AllOnes, mid, Swept(drained), u, []);
    RunCons(AllOnes, t, Archived(p), mid, [Swept(drained)] + []);
    assert [Archived(p)] + ([Swept(drained)] + []) == [Archived(p), Swept(drained)];
  }

  lemma OnePingBatch(ts: UInt64)
    ensures BatchRow(AllOnes, [PingAt(ts)]) == RowAt(ts, None)
  {
    assert Leaves(AllOnes, [PingAt(ts)]) == [ONES];
  }

  lemma SweepTakesOne(t: Trip, drained: seq<SignedPing>, ts: UInt64)
    requires Usable(t.rows, drained) == [PingAt(ts)] && (ts, ts) !in t.jobIds
    ensures Sweep(AllOnes, t, drained)
            == t.(rows := t.rows + [RowAt(ts, None)], jobs := t.jobs + [JobAt(ts)], jobIds := t.jobIds + {(ts, ts)})
  {
    OnePingBatch(ts);
  }

  lemma FirstSweep()
    ensures Answers([PingAt(1)], EMPTY_TRIP.archive + [PingAt(1)], 0, 1)
    ensures Sweep(AllOnes, EMPTY_TRIP.(archive := EMPTY_TRIP.archive + [PingAt(1)]), [PingAt(1)]) == ONE_SWEPT
  {
    var p := PingAt(1);
    assert EMPTY_TRIP.archive + [p] == [p];
    SelectOne(p, 0, 1);
    assert Sort(ByTs, [p]) == [p];
    SweepTakesOne(EMPTY_TRIP.(archive := [p]), [p], 1);
  }

  lemma SelectOne(p: SignedPing, lo: int, hi: int)
    ensures Select([p], lo, hi) == if lo <= p.ts <= hi then [p] else []
  {
    assert [p][1..] == [];
  }

  lemma SelectTwo(p: SignedPing, q: SignedPing, lo: int, hi: int)
    ensures Select([p, q], lo, hi) == (if lo <= p.ts <= hi then [p] else []) + (if lo <= q.ts <= hi then [q] else [])
  {
    assert [p, q][1..] == [q];
    SelectOne(q, lo, hi);
  }

  lemma SecondUsable()
    ensures Usable([RowAt(1, None)], [PingAt(1), PingAt(2)]) == [PingAt(2)]
  {
    var p, q := PingAt(1), PingAt(2);
    SortedIsFixed(ByTs, [p, q]);
    SelectTwo(p, q, 2, TWO_64 - 1);
    assert LastToTs([RowAt(1, None)]) == Some(1);
  }

  lemma SecondAnswer()
    ensures Answers([PingAt(1), PingAt(2)], ONE_SWEPT.archive + [PingAt(2)], 0, 2)
  {
    assert ONE_SWEPT.archive + [PingAt(2)] == [PingAt(1), PingAt(2)];
    SelectTwo(PingAt(1), PingAt(2), 0, 2);
  }

  lemma SecondSweep()
    ensures Sweep(AllOnes, ONE_SWEPT.(archive := ONE_SWEPT.archive + [PingAt(2)]), [PingAt(1), PingAt(2)]) == WAITING
  {
    var t := ONE_SWEPT.(archive := ONE_SWEPT.archive + [PingAt(2)]);
    SecondUsable();
    SweepTakesOne(t, [PingAt(1), PingAt(2)], 2);
    assert t.archive == WAITING.archive;
    assert t.rows + [RowAt(2, None)] == WAITING.rows;
    assert t.jobs + [JobAt(2)] == WAITING.jobs;
    assert t.jobIds + {(2, 2)} == WAITING.jobIds;
  }
}
