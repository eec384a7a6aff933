/** Exactly which archived pings end up in a batch, over every run. */
module AnchorCoverage {
  import opened Wrappers
  import opened ByteStrings
  import opened Sorting
  import opened Telemetry
  import opened AnchorPipeline
  import opened AnchorAgreement

  /** The pings a step puts into a new row. */
  function TakenBy(t: Trip, e: Event): seq<SignedPing> {
    if e.Swept? then Usable(t.rows, e.drained) else []
  }

  /** Some step of the run puts p into a row. */
  ghost predicate EverTaken(h: Hash, t: Trip, es: seq<Event>, p: SignedPing)
    requires PossibleRun(h, t, es)
    decreases |es|
  {
    |es| > 0 && (p in TakenBy(t, es[0]) || EverTaken(h, Step(h, t, es[0]), es[1..], p))
  }

  /** The ping is later than everything stored so far. */
  predicate AfterLast(rows: seq<Row>, p: SignedPing) {
    LastToTs(rows).None? || p.ts > LastToTs(rows).value
  }

  /** Written out: every stored window ends before the ping. */
  predicate LaterThanAll(rows: seq<Row>, p: SignedPing) {
    forall r :: r in rows ==> r.toTs < p.ts
  }

  lemma {:induction false} LaterIff(rows: seq<Row>, p: SignedPing)
    ensures LaterThanAll(rows, p) <==> AfterLast(rows, p)
  {
    if |rows| > 0 {
      var init, last := rows[..|rows| - 1], rows[|rows| - 1];
      assert rows == init + [last];
      LaterIff(init, p);
      assert LaterThanAll(rows, p) <==> LaterThanAll(init, p) && last.toTs < p.ts;
    }
  }

  predicate DrainedIn(es: seq<Event>, p: SignedPing) {
    exists i :: 0 <= i < |es| && es[i].Swept? && p in es[i].drained
  }

  lemma SortedMembers(pings: seq<SignedPing>, p: SignedPing)
    ensures p in Sort(ByTs, pings) <==> p in pings
  {
    ByTsIsPreorder();
    SortSpec(ByTs, pings);
    assert p in Sort(ByTs, pings) <==> p in multiset(Sort(ByTs, pings));
    assert p in pings <==> p in multiset(pings);
  }

  lemma UsableMembers(rows: seq<Row>, drained: seq<SignedPing>, p: SignedPing)
    ensures p in Usable(rows, drained) <==> p in drained && AfterLast(rows, p)
  {
    SortedMembers(drained, p);
    if LastToTs(rows).Some? {
      var last: int := LastToTs(rows).value;
      SelectMembers(Sort(ByTs, drained), last + 1, TWO_64 - 1, p);
    }
  }

  lemma DrainedMembers(drained: seq<SignedPing>, archive: seq<SignedPing>, upTo: UInt64, p: SignedPing)
    requires Answers(drained, archive, 0, upTo)
    ensures p in drained <==> p in archive && p.ts <= upTo
  {
    SelectMembers(archive, 0, upTo, p);
    assert p in drained <==> p in multiset(drained);
    assert p in Select(archive, 0, upTo) <==> p in multiset(Select(archive, 0, upTo));
  }

  lemma LastToTsSnoc(rows: seq<Row>, r: Row)
    ensures LastToTs(rows + [r])
            == if LastToTs(rows).Some? && LastToTs(rows).value > r.toTs then LastToTs(rows) else Some(r.toTs)
  {
    assert (rows + [r])[..|rows|] == rows;
  }

  lemma AfterOneMore(rows: seq<Row>, r: Row, p: SignedPing)
    ensures AfterLast(rows + [r], p) <==> AfterLast(rows, p) && r.toTs < p.ts
  {
    LastToTsSnoc(rows, r);
  }

  /** The pings a batch takes end with its last one, which was drained. */
  lemma BatchEnds(t: Trip, drained: seq<SignedPing>, upTo: UInt64, p: SignedPing)
    requires Answers(drained, t.archive, 0, upTo) && |Usable(t.rows, drained)| > 0
    ensures var usable := Usable(t.rows, drained);
            usable[|usable| - 1].ts <= upTo && (p in usable ==> p.ts <= usable[|usable| - 1].ts)
  {
    var usable := Usable(t.rows, drained);
    var last := usable[|usable| - 1];
    DrainedMembers(drained, t.archive, upTo, last);
    UsableMembers(t.rows, drained, last);
    if p in usable {
      UsableSorted(t.rows, drained);
      var i :| 0 <= i < |usable| && usable[i] == p;
      assert i == |usable| - 1 || ByTs(usable[i], last);
    }
  }

  lemma SweptRows(h: Hash, t: Trip, drained: seq<SignedPing>)
    ensures var usable := Usable(t.rows, drained);
            Sweep(h, t, drained).rows == if |usable| == 0 then t.rows else t.rows + [BatchRow(h, usable)]
  {
  }

  /** A sweep keeps a ping waiting exactly if it was waiting and was not drained. */
  lemma SweepKeepsWaiting(h: Hash, t: Trip, drained: seq<SignedPing>, upTo: UInt64, p: SignedPing)
    requires Answers(drained, t.archive, 0, upTo) && p in t.archive
    ensures AfterLast(Sweep(h, t, drained).rows, p) <==> AfterLast(t.rows, p) && p !in drained
  {
    var usable := Usable(t.rows, drained);
    SweptRows(h, t, drained);
    DrainedMembers(drained, t.archive, upTo, p);
    UsableMembers(t.rows, drained, p);
    if |usable| > 0 {
      AfterOneMore(t.rows, BatchRow(h, usable), p);
      BatchEnds(t, drained, upTo, p);
    }
  }

  lemma {:induction false} MarkKeepsEnds(rows: seq<Row>, index: nat, k: nat)
    requires k < |rows|
    ensures MarkOldest(rows, index)[k].toTs == rows[k].toTs
  {
    if k > 0 && rows[0].batchIndex.Some? {
      MarkKeepsEnds(rows[1..], index, k - 1);
    }
  }

  lemma {:induction false} SameEndsSameLast(rows: seq<Row>, marked: seq<Row>)
    requires |rows| == |marked| && forall k :: 0 <= k < |rows| ==> marked[k].toTs == rows[k].toTs
    ensures LastToTs(marked) == LastToTs(rows)
  {
    if |rows| > 0 {
      SameEndsSameLast(rows[..|rows| - 1], marked[..|rows| - 1]);
    }
  }

  /** No step but a sweep changes whether a ping is waiting. */
  lemma OtherStepsKeepWaiting(h: Hash, t: Trip, e: Event)
    requires Possible(t, e) && !e.Swept?
    ensures LastToTs(Step(h, t, e).rows) == LastToTs(t.rows)
    ensures t.archive <= Step(h, t, e).archive
  {
    if e.Worked? {
      forall k | 0 <= k < |t.rows| ensures MarkOldest(t.rows, |t.chain|)[k].toTs == t.rows[k].toTs {
        MarkKeepsEnds(t.rows, |t.chain|, k);
      }
      SameEndsSameLast(t.rows, MarkOldest(t.rows, |t.chain|));
    }
  }

  lemma DrainedFirst(es: seq<Event>, p: SignedPing)
    requires |es| > 0
    ensures DrainedIn(es, p) <==> (es[0].Swept? && p in es[0].drained) || DrainedIn(es[1..], p)
  {
    if i :| 0 <= i < |es| && es[i].Swept? && p in es[i].drained && i > 0 {
      assert es[1..][i - 1] == es[i];
    }
    if i :| 0 <= i < |es[1..]| && es[1..][i].Swept? && p in es[1..][i].drained {
      assert es[i + 1] == es[1..][i];
    }
  }

  /** Over any run, an archived ping ends up in a row exactly if it is later than everything
      stored when the run starts and some sweep drains it. */
  lemma {:induction false} BatchedIff(h: Hash, t: Trip, es: seq<Event>, p: SignedPing)
    requires PossibleRun(h, t, es) && p in t.archive
    ensures EverTaken(h, t, es, p) <==> LaterThanAll(t.rows, p) && DrainedIn(es, p)
    decreases |es|
  {
    LaterIff(t.rows, p);
    if |es| > 0 {
      var u := Step(h, t, es[0]);
      DrainedFirst(es, p);
      if es[0].Swept? {
        var upTo: UInt64 :| Answers(es[0].drained, t.archive, 0, upTo);
        UsableMembers(t.rows, es[0].drained, p);
        SweepKeepsWaiting(h, t, es[0].drained, upTo, p);
        assert u.archive == t.archive;
      } else {
        OtherStepsKeepWaiting(h, t, es[0]);
      }
      LaterIff(u.rows, p);
      BatchedIff(h, u, es[1..], p);
    }
  }

  /** So a ping archived no later than the end of some stored batch, inside a window or in a gap
      between two, is never anchored, whatever happens afterwards. */
  lemma LatePingIsNeverBatched(h: Hash, t: Trip, es: seq<Event>, p: SignedPing)
    requires PossibleRun(h, t.(archive := t.archive + [p]), es)
    requires exists r :: r in t.rows && p.ts <= r.toTs
    ensures !EverTaken(h, t.(archive := t.archive + [p]), es, p)
  {
    assert p in t.archive + [p];
    BatchedIff(h, t.(archive := t.archive + [p]), es, p);
  }

  /** And no ping is ever put into two rows. */
  lemma BatchedOnce(h: Hash, t: Trip, e: Event, es: seq<Event>, p: SignedPing)
    requires Possible(t, e) && PossibleRun(h, Step(h, t, e), es) && p in t.archive
    requires p in TakenBy(t, e)
    ensures !EverTaken(h, Step(h, t, e), es, p)
  {
    var upTo: UInt64 :| Answers(e.drained, t.archive, 0, upTo);
    UsableMembers(t.rows, e.drained, p);
    SweepKeepsWaiting(h, t, e.drained, upTo, p);
    assert Step(h, t, e).archive == t.archive;
    LaterIff(Step(h, t, e).rows, p);
    BatchedIff(h, Step(h, t, e), es, p);
  }
}
