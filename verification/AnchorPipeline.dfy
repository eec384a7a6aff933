/**
 * One trip's telemetry on its way to the chain: the signed archive, the stored batches,
 * the anchor jobs and the on-chain list, as values, with every step the batcher, the
 * scheduler, the worker and the proof query take on them. SQL leaves the order of rows
 * with equal timestamps open, so queries are relations, not functions.
 */
module AnchorPipeline {
  import opened Wrappers
  import opened ByteStrings
  import opened Sorting
  import opened Telemetry
  import opened Merkle
  import TripLog

  datatype Row = Row(root: Bytes32, fromTs: UInt64, toTs: UInt64, pingCount: nat, batchIndex: Option<nat>)

  datatype Job = Job(root: Bytes32, fromTs: UInt64, toTs: UInt64)

  datatype Trip = Trip(
    archive: seq<SignedPing>,
    rows: seq<Row>,
    jobs: seq<Job>,
    jobIds: set<(UInt64, UInt64)>,
    chain: seq<TripLog.Batch>)

  const EMPTY_TRIP := Trip([], [], [], {}, [])

  // ---------------------------------------------------------------- queries

  /** The pings with lo <= ts <= hi, in the order given. */
  function Select(pings: seq<SignedPing>, lo: int, hi: int): seq<SignedPing> {
    if |pings| == 0 then []
    else if lo <= pings[0].ts <= hi then [pings[0]] + Select(pings[1..], lo, hi)
    else Select(pings[1..], lo, hi)
  }

  /** `rows` is one possible answer to SELECT ... WHERE ts BETWEEN lo AND hi ORDER BY ts. */
  ghost predicate Answers(rows: seq<SignedPing>, archive: seq<SignedPing>, lo: int, hi: int) {
    Sorted(ByTs, rows) && multiset(rows) == multiset(Select(archive, lo, hi))
  }

  ghost predicate DistinctTs(pings: seq<SignedPing>) {
    forall i, j :: 0 <= i < j < |pings| ==> pings[i].ts != pings[j].ts
  }

  lemma {:induction false} SelectCount(pings: seq<SignedPing>, lo: int, hi: int, p: SignedPing)
    ensures multiset(Select(pings, lo, hi))[p] == if lo <= p.ts <= hi then multiset(pings)[p] else 0
  {
    if |pings| > 0 {
      SelectCount(pings[1..], lo, hi, p);
      assert pings == [pings[0]] + pings[1..];
    }
  }

  lemma SelectMembers(pings: seq<SignedPing>, lo: int, hi: int, p: SignedPing)
    ensures p in Select(pings, lo, hi) <==> p in pings && lo <= p.ts <= hi
  {
    SelectCount(pings, lo, hi, p);
    assert p in Select(pings, lo, hi) <==> p in multiset(Select(pings, lo, hi));
    assert p in pings <==> p in multiset(pings);
  }

  lemma {:induction false} SelectSorted(pings: seq<SignedPing>, lo: int, hi: int)
    requires Sorted(ByTs, pings)
    ensures Sorted(ByTs, Select(pings, lo, hi))
  {
    if |pings| > 0 {
      SelectSorted(pings[1..], lo, hi);
      var rest := Select(pings[1..], lo, hi);
      forall k | 0 <= k < |rest| ensures ByTs(pings[0], rest[k]) {
        SelectMembers(pings[1..], lo, hi, rest[k]);
        var i :| 0 <= i < |pings[1..]| && pings[1..][i] == rest[k];
        assert pings[1..][i] == pings[i + 1];
      }
    }
  }

  /** With distinct timestamps a range query has exactly one answer. */
  lemma AnswerUnique(r: seq<SignedPing>, s: seq<SignedPing>, archive: seq<SignedPing>, lo: int, hi: int)
    requires Answers(r, archive, lo, hi) && Answers(s, archive, lo, hi)
    requires DistinctTs(archive)
    ensures r == s
  {
    forall x, y | x in r && y in r && ByTs(x, y) && ByTs(y, x) ensures x == y {
      assert x in multiset(r) && y in multiset(r);
      assert x in Select(archive, lo, hi) && y in Select(archive, lo, hi);
      SelectMembers(archive, lo, hi, x);
      SelectMembers(archive, lo, hi, y);
    }
    SortedUnique(ByTs, r, s);
  }

  // ---------------------------------------------------------------- steps

  /** SELECT MAX(to_ts). */
  function LastToTs(rows: seq<Row>): Option<UInt64> {
    if |rows| == 0 then None
    else
      var rest := LastToTs(rows[..|rows| - 1]);
      var last := rows[|rows| - 1].toTs;
      if rest.Some? && rest.value > last then rest else Some(last)
  }

  /** The pings of a drained answer that the next batch may use, in timestamp order. */
  function Usable(rows: seq<Row>, drained: seq<SignedPing>): seq<SignedPing> {
    var sorted := Sort(ByTs, drained);
    match LastToTs(rows)
    case None => sorted
    case Some(last) => Select(sorted, last + 1, TWO_64 - 1)
  }

  function BatchRow(h: Hash, pings: seq<SignedPing>): Row
    requires |pings| > 0
  {
    Row(Root(h, Leaves(h, pings)), pings[0].ts, pings[|pings| - 1].ts, |pings|, None)
  }

  /** closeWindow: stores one row over the usable pings, or does nothing. */
  function Close(h: Hash, t: Trip, drained: seq<SignedPing>): Trip {
    var usable := Usable(t.rows, drained);
    if |usable| == 0 then t else t.(rows := t.rows + [BatchRow(h, usable)])
  }

  /** The scheduler's queue.add, a no-op for a job id already seen. */
  function Enqueue(t: Trip, r: Row): Trip {
    if (r.fromTs, r.toTs) in t.jobIds then t
    else t.(jobs := t.jobs + [Job(r.root, r.fromTs, r.toTs)], jobIds := t.jobIds + {(r.fromTs, r.toTs)})
  }

  /** One hourly sweep of this trip: close the window and queue the new batch, if any. */
  function Sweep(h: Hash, t: Trip, drained: seq<SignedPing>): Trip {
    var closed := Close(h, t, drained);
    if |closed.rows| == |t.rows| then closed else Enqueue(closed, closed.rows[|t.rows|])
  }

  /** markAnchored: the oldest unanchored row gets the index. */
  function MarkOldest(rows: seq<Row>, index: nat): (marked: seq<Row>)
    ensures |marked| == |rows|
  {
    if |rows| == 0 then []
    else if rows[0].batchIndex.None? then [rows[0].(batchIndex := Some(index))] + rows[1..]
    else [rows[0]] + MarkOldest(rows[1..], index)
  }

  /** How one attempt at a job ends: anchored and marked, anchored but the mark lost
      (the confirmation wait failed and the job is retried), or no chain effect at all. */
  datatype Attempt = Completed | MarkLost | Unsent

  function RemoveJob(jobs: seq<Job>, i: nat): seq<Job>
    requires i < |jobs|
  {
    jobs[..i] + jobs[i + 1..]
  }

  /** One attempt at the i-th waiting job. */
  function Work(t: Trip, i: nat, now: nat, a: Attempt): Trip
    requires i < |t.jobs|
  {
    var job := t.jobs[i];
    if a.Unsent? then t
    else
      match TripLog.Append(t.chain, job.root, job.fromTs, job.toTs, now)
      case Err(e) => if e.TimeOverlap? then t.(jobs := RemoveJob(t.jobs, i)) else t
      case Ok(chain) =>
        if a.MarkLost? then t.(chain := chain)
        else t.(chain := chain, rows := MarkOldest(t.rows, |t.chain|), jobs := RemoveJob(t.jobs, i))
  }

  /** Everything that can happen to a trip. GiveUp drops a job whose attempts ran out. */
  datatype Event =
    | Archived(ping: SignedPing)
    | Swept(drained: seq<SignedPing>)
    | Worked(i: nat, now: nat, attempt: Attempt)
    | GaveUp(i: nat)

  ghost predicate Possible(t: Trip, e: Event) {
    match e
    case Archived(p) => true
    case Swept(drained) => exists upTo: UInt64 :: Answers(drained, t.archive, 0, upTo)
    case Worked(i, _, _) => i < |t.jobs|
    case GaveUp(i) => i < |t.jobs|
  }

  ghost function Step(h: Hash, t: Trip, e: Event): Trip
    requires Possible(t, e)
  {
    match e
    case Archived(p) => t.(archive := t.archive + [p])
    case Swept(drained) => Sweep(h, t, drained)
    case Worked(i, now, a) => Work(t, i, now, a)
    case GaveUp(i) => t.(jobs := RemoveJob(t.jobs, i))
  }

  ghost predicate PossibleRun(h: Hash, t: Trip, es: seq<Event>)
    decreases |es|
  {
    |es| == 0 || (Possible(t, es[0]) && PossibleRun(h, Step(h, t, es[0]), es[1..]))
  }

  ghost function Run(h: Hash, t: Trip, es: seq<Event>): Trip
    requires PossibleRun(h, t, es)
    decreases |es|
  {
    if |es| == 0 then t else Run(h, Step(h, t, es[0]), es[1..])
  }
}
