/**
 * The objects of the anchoring pipeline: the Postgres store, the batcher, the job queue,
 * the scheduler and the worker. Every method is tied to the per-trip steps of
 * AnchorPipeline, for the trip it works on and with no effect on any other.
 */
module AnchorService {
  import opened Seqs
  import opened Wrappers
  import opened ByteStrings
  import opened Sorting
  import opened Telemetry
  import opened Merkle
  import opened AnchorPipeline
  import opened AnchorCoverage
  import opened TripLog

  function ArchiveOf(pings: seq<SignedPing>, tripId: Word): (own: seq<SignedPing>)
    ensures forall p :: p in own ==> p.tripId == tripId
  {
    if |pings| == 0 then []
    else if pings[0].tripId == tripId then [pings[0]] + ArchiveOf(pings[1..], tripId)
    else ArchiveOf(pings[1..], tripId)
  }

  lemma {:induction false} ArchiveOfAppend(pings: seq<SignedPing>, p: SignedPing, tripId: Word)
    ensures ArchiveOf(pings + [p], tripId)
            == if p.tripId == tripId then ArchiveOf(pings, tripId) + [p] else ArchiveOf(pings, tripId)
  {
    if |pings| == 0 {
      assert pings + [p] == [p];
      assert [p][1..] == [];
    } else {
      ArchiveOfAppend(pings[1..], p, tripId);
      assert (pings + [p])[1..] == pings[1..] + [p];
    }
  }

  function RowsOf(m: map<Word, seq<Row>>, tripId: Word): seq<Row> {
    if tripId in m then m[tripId] else []
  }

  function JobsOf(m: map<Word, seq<Job>>, tripId: Word): seq<Job> {
    if tripId in m then m[tripId] else []
  }

  function IdsOf(m: map<Word, set<(UInt64, UInt64)>>, tripId: Word): set<(UInt64, UInt64)> {
    if tripId in m then m[tripId] else {}
  }

  // ---------------------------------------------------------------- store

  class BatchStore {
    var pings: seq<SignedPing>
    var rows: map<Word, seq<Row>>

    constructor ()
      ensures pings == [] && rows == map[]
    {
      pings, rows := [], map[];
    }

    /** Insert into the signed archive. */
    method Archive(p: SignedPing)
      modifies this
      ensures rows == old(rows)
      ensures forall t :: ArchiveOf(pings, t)
                == ArchiveOf(old(pings), t) + (if p.tripId == t then [p] else [])
    {
      ghost var before := pings;
      pings := pings + [p];
      forall t ensures ArchiveOf(pings, t) == ArchiveOf(before, t) + (if p.tripId == t then [p] else []) {
        ArchiveOfAppend(before, p, t);
      }
    }

    /** SELECT ... WHERE trip_id = tripId AND ts BETWEEN lo AND hi ORDER BY ts. */
    method PingsInWindow(tripId: Word, lo: nat, hi: nat) returns (answer: seq<SignedPing>)
      ensures Answers(answer, ArchiveOf(pings, tripId), lo, hi)
      ensures forall p :: p in answer ==> p.tripId == tripId
    {
      var selected := Select(ArchiveOf(pings, tripId), lo, hi);
      ByTsIsPreorder();
      SortSpec(ByTs, selected);
      answer := Sort(ByTs, selected);
      forall p | p in answer ensures p.tripId == tripId {
        assert p in multiset(answer);
        SelectMembers(ArchiveOf(pings, tripId), lo, hi, p);
      }
    }

    method Drain(tripId: Word, upToTs: UInt64) returns (answer: seq<SignedPing>)
      ensures Answers(answer, ArchiveOf(pings, tripId), 0, upToTs)
      ensures forall p :: p in answer ==> p.tripId == tripId
    {
      answer := PingsInWindow(tripId, 0, upToTs);
    }

    method SaveBatch(tripId: Word, r: Row)
      modifies this`rows
      ensures forall t :: RowsOf(rows, t) == RowsOf(old(rows), t) + (if t == tripId then [r] else [])
    {
      rows := rows[tripId := RowsOf(rows, tripId) + [r]];
    }

    method MarkAnchored(tripId: Word, index: nat)
      modifies this`rows
      ensures RowsOf(rows, tripId) == MarkOldest(RowsOf(old(rows), tripId), index)
      ensures forall t :: t != tripId ==> RowsOf(rows, t) == RowsOf(old(rows), t)
    {
      rows := rows[tripId := MarkOldest(RowsOf(rows, tripId), index)];
    }

    /** SELECT DISTINCT trip_id, in an order the database chooses. */
    method TripsWithPending() returns (trips: seq<Word>)
      ensures forall i, j :: 0 <= i < j < |trips| ==> trips[i] != trips[j]
      ensures forall t :: t in trips <==> exists p :: p in pings && p.tripId == t
    {
      trips := [];
      for i := 0 to |pings|
        invariant forall i, j :: 0 <= i < j < |trips| ==> trips[i] != trips[j]
        invariant forall t :: t in trips <==> exists p :: p in pings[..i] && p.tripId == t
      {
        assert pings[..i + 1] == pings[..i] + [pings[i]];
        if pings[i].tripId !in trips {
          trips := trips + [pings[i].tripId];
        }
      }
      assert pings[..|pings|] == pings;
    }
  }

  // ---------------------------------------------------------------- batcher

  class MerkleBatcher {
    const keccak: Hash
    const store: BatchStore

    constructor (keccak: Hash, store: BatchStore)
      ensures this.keccak == keccak && this.store == store
    {
      this.keccak := keccak;
      this.store := store;
    }

    /** Closes one trip's window over what the store drained. */
    method CloseWindow(tripId: Word, upToTs: UInt64)
      returns (batch: Option<Row>, ghost drained: seq<SignedPing>)
      modifies store`rows
      ensures Answers(drained, ArchiveOf(store.pings, tripId), 0, upToTs)
      ensures batch == Closing(keccak, RowsOf(old(store.rows), tripId), drained)
      ensures RowsOf(store.rows, tripId) == AfterClosing(RowsOf(old(store.rows), tripId), batch)
      ensures forall t :: t != tripId ==> RowsOf(store.rows, t) == RowsOf(old(store.rows), t)
    {
      var pings := store.Drain(tripId, upToTs);
      drained := pings;
      if |pings| == 0 { return None, drained; }
      var sorted := Sort(ByTs, pings);
      var lastToTs := LastToTs(RowsOf(store.rows, tripId));
      var usable := sorted;
      if lastToTs.Some? {
        var last: int := lastToTs.value;
        usable := Select(sorted, last + 1, TWO_64 - 1);
      }
      assert usable == Usable(RowsOf(store.rows, tripId), drained);
      if |usable| == 0 { return None, drained; }
      assert usable[0].tripId == tripId by {
        UsableMembers(RowsOf(store.rows, tripId), pings, usable[0]);
      }
      var r := Row(Root(keccak, Leaves(keccak, usable)), usable[0].ts, usable[|usable| - 1].ts, |usable|, None);
      store.SaveBatch(usable[0].tripId, r);
      return Some(r), drained;
    }

    /** Closes every trip with telemetry; `out` lists what was closed. */
    method CloseAllDue(now: UInt64)
      returns (out: seq<(Word, Row)>, ghost drained: map<Word, seq<SignedPing>>)
      modifies store`rows
      ensures forall t :: t in drained <==> exists p :: p in store.pings && p.tripId == t
      ensures ClosedFrom(keccak, old(store.rows), store.rows, store.pings, now, out, drained)
    {
      var trips := store.TripsWithPending();
      out, drained := [], map[];
      for i := 0 to |trips|
        invariant forall t :: t in drained <==> t in trips[..i]
        invariant ClosedFrom(keccak, old(store.rows), store.rows, store.pings, now, out, drained)
      {
        TakeMore(trips, i);
        ghost var rows := store.rows;
        var b, d := CloseWindow(trips[i], now);
        CloseStep(keccak, old(store.rows), rows, store.rows, store.pings, now, out, drained, trips[i], d);
        drained := drained[trips[i] := d];
        if b.Some? {
          out := out + [(trips[i], b.value)];
        }
      }
      TakeAll(trips);
    }
  }

  /** The batch closeWindow makes of a drained answer. */
  function Closing(h: Hash, rows: seq<Row>, drained: seq<SignedPing>): Option<Row> {
    if |Usable(rows, drained)| == 0 then None else Some(BatchRow(h, Usable(rows, drained)))
  }

  function AfterClosing(rows: seq<Row>, batch: Option<Row>): seq<Row> {
    if batch.None? then rows else rows + [batch.value]
  }

  /** A drained trip has had its usable pings closed, any other trip is as before. */
  ghost predicate TripClosed(h: Hash, before: seq<Row>, rows: seq<Row>, archive: seq<SignedPing>,
                             now: UInt64, drained: Option<seq<SignedPing>>)
  {
    match drained
    case None => rows == before
    case Some(d) => Answers(d, archive, 0, now) && rows == AfterClosing(before, Closing(h, before, d))
  }

  function Find<V>(m: map<Word, V>, tripId: Word): Option<V> {
    if tripId in m then Some(m[tripId]) else None
  }

  ghost predicate ClosedFrom(
      h: Hash, before: map<Word, seq<Row>>, rows: map<Word, seq<Row>>, pings: seq<SignedPing>,
      now: UInt64, out: seq<(Word, Row)>, drained: map<Word, seq<SignedPing>>)
  {
    && (forall t :: TripClosed(h, RowsOf(before, t), RowsOf(rows, t), ArchiveOf(pings, t), now, Find(drained, t)))
    && Lists(out, Made(h, before, drained))
  }

  /** The batches a sweep has made of the trips drained so far. */
  function Made(h: Hash, before: map<Word, seq<Row>>, drained: map<Word, seq<SignedPing>>): map<Word, Option<Row>> {
    map t | t in drained :: Closing(h, RowsOf(before, t), drained[t])
  }

  /** `out` lists every new batch, once per trip. */
  ghost predicate Lists(out: seq<(Word, Row)>, made: map<Word, Option<Row>>) {
    && (forall j, k :: 0 <= j < k < |out| ==> out[j].0 != out[k].0)
    && (forall k :: 0 <= k < |out| ==> out[k].0 in made && made[out[k].0] == Some(out[k].1))
    && (forall t :: t in made && made[t].Some? ==> Listed(out, t))
  }

  ghost predicate Listed(out: seq<(Word, Row)>, tripId: Word) {
    exists k :: 0 <= k < |out| && out[k].0 == tripId
  }

  /** The trips of which a sweep made a batch. */
  function MadeSome(made: map<Word, Option<Row>>): set<Word> {
    set t | t in made && made[t].Some?
  }

  function Firsts(out: seq<(Word, Row)>): set<Word> {
    if |out| == 0 then {} else Firsts(out[..|out| - 1]) + {out[|out| - 1].0}
  }

  lemma {:induction false} FirstsOf(out: seq<(Word, Row)>)
    requires forall j, k :: 0 <= j < k < |out| ==> out[j].0 != out[k].0
    ensures |Firsts(out)| == |out| && forall t :: t in Firsts(out) <==> Listed(out, t)
  {
    if |out| > 0 {
      var init, last := out[..|out| - 1], out[|out| - 1];
      FirstsOf(init);
      ListedAppend(init, last);
      assert out == init + [last];
      assert !Listed(init, last.0);
    }
  }

  /** The list has one entry per batch made. */
  lemma ListedCount(out: seq<(Word, Row)>, made: map<Word, Option<Row>>)
    requires Lists(out, made)
    ensures |out| == |MadeSome(made)|
  {
    FirstsOf(out);
    forall t ensures t in Firsts(out) <==> t in MadeSome(made) {
      if Listed(out, t) {
        var k :| 0 <= k < |out| && out[k].0 == t;
      }
    }
    assert Firsts(out) == MadeSome(made);
  }

  lemma CloseStep(
      h: Hash, before: map<Word, seq<Row>>, rows: map<Word, seq<Row>>, rows': map<Word, seq<Row>>,
      pings: seq<SignedPing>, now: UInt64, out: seq<(Word, Row)>, drained: map<Word, seq<SignedPing>>,
      tripId: Word, d: seq<SignedPing>)
    requires ClosedFrom(h, before, rows, pings, now, out, drained) && tripId !in drained
    requires Answers(d, ArchiveOf(pings, tripId), 0, now)
    requires RowsOf(rows', tripId) == AfterClosing(RowsOf(rows, tripId), Closing(h, RowsOf(rows, tripId), d))
    requires forall t :: t != tripId ==> RowsOf(rows', t) == RowsOf(rows, t)
    ensures var b := Closing(h, RowsOf(rows, tripId), d);
            ClosedFrom(h, before, rows', pings, now,
                       if b.Some? then out + [(tripId, b.value)] else out, drained[tripId := d])
  {
    forall t
      ensures TripClosed(h, RowsOf(before, t), RowsOf(rows', t), ArchiveOf(pings, t), now, Find(drained[tripId := d], t))
    {
      assert TripClosed(h, RowsOf(before, t), RowsOf(rows, t), ArchiveOf(pings, t), now, Find(drained, t));
      FindUpdate(drained, tripId, d, t);
    }
    assert TripClosed(h, RowsOf(before, tripId), RowsOf(rows, tripId), ArchiveOf(pings, tripId), now, Find(drained, tripId));
    MadeStep(h, before, drained, tripId, d);
    ListStep(out, Made(h, before, drained), tripId, Closing(h, RowsOf(before, tripId), d));
  }

  lemma FindUpdate<V>(m: map<Word, V>, k: Word, v: V, t: Word)
    ensures Find(m[k := v], t) == if t == k then Some(v) else Find(m, t)
  {
  }

  lemma MadeStep(h: Hash, before: map<Word, seq<Row>>, drained: map<Word, seq<SignedPing>>,
                 tripId: Word, d: seq<SignedPing>)
    ensures Made(h, before, drained[tripId := d])
            == Made(h, before, drained)[tripId := Closing(h, RowsOf(before, tripId), d)]
  {
  }

  lemma ListStep(out: seq<(Word, Row)>, made: map<Word, Option<Row>>, tripId: Word, b: Option<Row>)
    requires Lists(out, made) && tripId !in made
    ensures Lists(if b.Some? then out + [(tripId, b.value)] else out, made[tripId := b])
  {
    if b.Some? {
      ListedAppend(out, (tripId, b.value));
    }
  }

  lemma ListedAppend(out: seq<(Word, Row)>, b: (Word, Row))
    ensures forall t :: Listed(out + [b], t) <==> Listed(out, t) || t == b.0
  {
    forall t ensures Listed(out + [b], t) <==> Listed(out, t) || t == b.0 {
      if Listed(out, t) {
        var k :| 0 <= k < |out| && out[k].0 == t;
        assert (out + [b])[k].0 == t;
      }
      assert (out + [b])[|out|] == b;
    }
  }

  // ---------------------------------------------------------------- queue, scheduler, worker

  /** One trip's waiting jobs and the job ids it has used. */
  datatype QueueLane = QueueLane(jobs: seq<Job>, ids: set<(UInt64, UInt64)>)

  function Lane(jobs: map<Word, seq<Job>>, ids: map<Word, set<(UInt64, UInt64)>>, tripId: Word): QueueLane {
    QueueLane(JobsOf(jobs, tripId), IdsOf(ids, tripId))
  }

  function AddTo(lane: QueueLane, r: Row): QueueLane {
    if (r.fromTs, r.toTs) in lane.ids then lane
    else QueueLane(lane.jobs + [Job(r.root, r.fromTs, r.toTs)], lane.ids + {(r.fromTs, r.toTs)})
  }

  class AnchorQueue {
    var jobs: map<Word, seq<Job>>
    var ids: map<Word, set<(UInt64, UInt64)>>

    constructor ()
      ensures jobs == map[] && ids == map[]
    {
      jobs, ids := map[], map[];
    }

    /** A job id already used for this trip is a no-op. */
    method Add(tripId: Word, r: Row)
      modifies this
      ensures Lane(jobs, ids, tripId) == AddTo(Lane(old(jobs), old(ids), tripId), r)
      ensures forall t :: t != tripId ==> Lane(jobs, ids, t) == Lane(old(jobs), old(ids), t)
    {
      if (r.fromTs, r.toTs) in IdsOf(ids, tripId) { return; }
      jobs := jobs[tripId := JobsOf(jobs, tripId) + [Job(r.root, r.fromTs, r.toTs)]];
      ids := ids[tripId := IdsOf(ids, tripId) + {(r.fromTs, r.toTs)}];
    }

    method Remove(tripId: Word, i: nat)
      requires i < |JobsOf(jobs, tripId)|
      modifies this`jobs
      ensures JobsOf(jobs, tripId) == RemoveJob(JobsOf(old(jobs), tripId), i)
      ensures forall t :: t != tripId ==> JobsOf(jobs, t) == JobsOf(old(jobs), t)
    {
      jobs := jobs[tripId := RemoveJob(JobsOf(jobs, tripId), i)];
    }
  }

  /** One trip as the store, the queue and the chain hold it. */
  ghost function TripView(store: BatchStore, queue: AnchorQueue, chain: TripLogAnchor, tripId: Word): Trip
    reads store, queue, chain
  {
    Trip(ArchiveOf(store.pings, tripId), RowsOf(store.rows, tripId),
         JobsOf(queue.jobs, tripId), IdsOf(queue.ids, tripId), BatchesOf(chain.batches, tripId))
  }

  class BatchScheduler {
    const batcher: MerkleBatcher
    const queue: AnchorQueue

    constructor (batcher: MerkleBatcher, queue: AnchorQueue)
      ensures this.batcher == batcher && this.queue == queue
    {
      this.batcher := batcher;
      this.queue := queue;
    }

    /** Adds one job per new batch; the batches are of different trips. */
    method QueueAll(out: seq<(Word, Row)>)
      requires forall j, k :: 0 <= j < k < |out| ==> out[j].0 != out[k].0
      modifies queue
      ensures forall k :: 0 <= k < |out| ==>
                Lane(queue.jobs, queue.ids, out[k].0) == AddTo(Lane(old(queue.jobs), old(queue.ids), out[k].0), out[k].1)
      ensures forall t :: !Listed(out, t) ==> Lane(queue.jobs, queue.ids, t) == Lane(old(queue.jobs), old(queue.ids), t)
    {
      for i := 0 to |out|
        invariant forall k :: 0 <= k < i ==>
                    Lane(queue.jobs, queue.ids, out[k].0) == AddTo(Lane(old(queue.jobs), old(queue.ids), out[k].0), out[k].1)
        invariant forall t :: !Listed(out[..i], t) ==> Lane(queue.jobs, queue.ids, t) == Lane(old(queue.jobs), old(queue.ids), t)
      {
        ListedMore(out, i);
        assert !Listed(out[..i], out[i].0);
        queue.Add(out[i].0, out[i].1);
      }
      TakeAll(out);
    }

    /** An hourly sweep is one Sweep step for every trip with telemetry, and nothing for
        the others. */
    method Run(now: UInt64, ghost chain: TripLogAnchor)
      returns (count: nat, ghost drained: map<Word, seq<SignedPing>>)
      modifies batcher.store`rows, queue
      ensures forall t :: t in drained <==> exists p :: p in batcher.store.pings && p.tripId == t
      ensures forall t :: t in drained ==> Answers(drained[t], ArchiveOf(batcher.store.pings, t), 0, now)
      ensures forall t :: TripView(batcher.store, queue, chain, t)
                == if t in drained
                   then Sweep(batcher.keccak, old(TripView(batcher.store, queue, chain, t)), drained[t])
                   else old(TripView(batcher.store, queue, chain, t))
      ensures count == |MadeSome(Made(batcher.keccak, old(batcher.store.rows), drained))|
    {
      var out;
      out, drained := batcher.CloseAllDue(now);
      QueueAll(out);
      count := |out|;
      ListedCount(out, Made(batcher.keccak, old(batcher.store.rows), drained));
      forall t ensures TripView(batcher.store, queue, chain, t)
                == if t in drained
                   then Sweep(batcher.keccak, old(TripView(batcher.store, queue, chain, t)), drained[t])
                   else old(TripView(batcher.store, queue, chain, t))
      {
        var b := ClosingAt(batcher.keccak, old(batcher.store.rows), batcher.store.rows, batcher.store.pings,
                           now, out, drained, t);
        SweptTrip(batcher.keccak, old(TripView(batcher.store, queue, chain, t)),
                  TripView(batcher.store, queue, chain, t), Find(drained, t), b);
      }
    }
  }

  /** What a finished closing says about one trip. */
  lemma ClosingAt(
      h: Hash, before: map<Word, seq<Row>>, rows: map<Word, seq<Row>>, pings: seq<SignedPing>,
      now: UInt64, out: seq<(Word, Row)>, drained: map<Word, seq<SignedPing>>, t: Word)
    returns (b: Option<Row>)
    requires ClosedFrom(h, before, rows, pings, now, out, drained)
    ensures b == if t in drained then Closing(h, RowsOf(before, t), drained[t]) else None
    ensures RowsOf(rows, t) == AfterClosing(RowsOf(before, t), b)
    ensures t in drained ==> Answers(drained[t], ArchiveOf(pings, t), 0, now)
    ensures b.None? ==> !Listed(out, t)
    ensures b.Some? ==> exists k :: 0 <= k < |out| && out[k] == (t, b.value)
  {
    assert TripClosed(h, RowsOf(before, t), RowsOf(rows, t), ArchiveOf(pings, t), now, Find(drained, t));
    b := if t in drained then Closing(h, RowsOf(before, t), drained[t]) else None;
    var made := Made(h, before, drained);
    assert t in made ==> made[t] == b;
    if b.Some? {
      assert Listed(out, t);
      var k :| 0 <= k < |out| && out[k].0 == t;
      assert out[k] == (t, b.value);
    }
  }

  /** A trip whose rows took the closed batch and whose lane took its job has been swept. */
  lemma SweptTrip(h: Hash, before: Trip, after: Trip, drained: Option<seq<SignedPing>>, b: Option<Row>)
    requires after.archive == before.archive && after.chain == before.chain
    requires b == if drained.None? then None else Closing(h, before.rows, drained.value)
    requires after.rows == AfterClosing(before.rows, b)
    requires QueueLane(after.jobs, after.jobIds)
             == if b.None? then QueueLane(before.jobs, before.jobIds)
                else AddTo(QueueLane(before.jobs, before.jobIds), b.value)
    ensures after == if drained.None? then before else Sweep(h, before, drained.value)
  {
  }

  lemma ListedMore(out: seq<(Word, Row)>, i: nat)
    requires i < |out|
    ensures forall t :: Listed(out[..i + 1], t) <==> Listed(out[..i], t) || t == out[i].0
  {
    TakeMore(out, i);
    ListedAppend(out[..i], out[i]);
  }

  class AnchorWorker {
    const queue: AnchorQueue
    const store: BatchStore
    const chain: TripLogAnchor
    const signer: Address

    constructor (queue: AnchorQueue, store: BatchStore, chain: TripLogAnchor, signer: Address)
      ensures this.queue == queue && this.store == store && this.chain == chain && this.signer == signer
    {
      this.queue, this.store, this.chain, this.signer := queue, store, chain, signer;
    }

    /** One attempt at a job. `fate` says how the network treated it. A job ends when it is
        marked or when the contract answers TimeOverlap; otherwise it stays for a retry. */
    method Process(tripId: Word, i: nat, now: nat, fate: Attempt)
      requires i < |JobsOf(queue.jobs, tripId)|
      modifies queue, store, chain
      ensures TripView(store, queue, chain, tripId)
              == if signer in old(chain.anchorers)
                 then Work(old(TripView(store, queue, chain, tripId)), i, now, fate)
                 else old(TripView(store, queue, chain, tripId))
      ensures forall t :: t != tripId ==> TripView(store, queue, chain, t) == old(TripView(store, queue, chain, t))
    {
      if fate.Unsent? { return; }
      var job := JobsOf(queue.jobs, tripId)[i];
      var r := chain.AnchorBatch(signer, now, tripId, job.root, job.fromTs, job.toTs);
      match r
      case Err(e) =>
        if e.TimeOverlap? {
          queue.Remove(tripId, i);
        }
      case Ok(index) =>
        if fate.Completed? {
          store.MarkAnchored(tripId, index);
          queue.Remove(tripId, i);
        }
    }
  }
}
