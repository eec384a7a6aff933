/**
 * The append-only scan log: an insert with the (piece, nonce) conflict rule, the index
 * that writes single scans and batches, and why replays change nothing.
 */
module ScanLog {
  import opened Wrappers
  import opened ByteStrings
  import opened Seqs
  import Sorting

  /** A piece id, read as its rank in the id order. */
  type PieceId = nat

  /** A client nonce; the scanner draws a fresh one per scan. */
  type Nonce = nat

  datatype Context = Loading | Unloading | PublicVerify | Partner

  datatype ScanEvent = ScanEvent(
    pieceId: PieceId, manifestId: Option<Word>, context: Context, scannedAt: int, nonce: Option<Nonce>)

  /** The unique index on (piece_id, client_nonce) where the nonce is not null. */
  predicate Conflicts(a: ScanEvent, b: ScanEvent) {
    a.nonce.Some? && a.nonce == b.nonce && a.pieceId == b.pieceId
  }

  predicate Held(log: seq<ScanEvent>, e: ScanEvent) {
    exists i :: 0 <= i < |log| && Conflicts(e, log[i])
  }

  /** INSERT ... ON CONFLICT DO NOTHING. */
  function Insert(log: seq<ScanEvent>, e: ScanEvent): seq<ScanEvent> {
    if Held(log, e) then log else log + [e]
  }

  /** An event is dropped exactly if the log has one of the same piece and the same nonce; scans
      without a nonce are never dropped. */
  lemma InsertedIff(log: seq<ScanEvent>, e: ScanEvent)
    ensures Insert(log, e)
            == if exists d :: d in log && d.pieceId == e.pieceId && d.nonce == e.nonce && e.nonce != None
               then log else log + [e]
  {
    if i :| 0 <= i < |log| && Conflicts(e, log[i]) {
      assert log[i] in log;
    }
    if d :| d in log && d.pieceId == e.pieceId && d.nonce == e.nonce && e.nonce != None {
      var i :| 0 <= i < |log| && log[i] == d;
      assert Conflicts(e, log[i]);
    }
  }

  function AppendAll(log: seq<ScanEvent>, es: seq<ScanEvent>): seq<ScanEvent> {
    if |es| == 0 then log else Insert(AppendAll(log, es[..|es| - 1]), es[|es| - 1])
  }

  /** At most one event per (piece, nonce). */
  ghost predicate Deduplicated(log: seq<ScanEvent>) {
    forall i, j :: 0 <= i < j < |log| ==> !Conflicts(log[j], log[i])
  }

  lemma InsertKeeps(log: seq<ScanEvent>, e: ScanEvent)
    ensures log <= Insert(log, e)
    ensures Deduplicated(log) ==> Deduplicated(Insert(log, e))
    ensures e.nonce.Some? ==> Held(Insert(log, e), e)
    ensures forall d :: Held(log, d) ==> Held(Insert(log, e), d)
  {
    var after := Insert(log, e);
    if e.nonce.Some? && !Held(log, e) {
      assert Conflicts(e, after[|log|]);
    }
    forall d | Held(log, d) ensures Held(after, d) {
      HeldInLonger(log, after, d);
    }
  }

  lemma HeldInLonger(log: seq<ScanEvent>, longer: seq<ScanEvent>, e: ScanEvent)
    requires log <= longer && Held(log, e)
    ensures Held(longer, e)
  {
    var i :| 0 <= i < |log| && Conflicts(e, log[i]);
    assert Conflicts(e, longer[i]);
  }

  lemma {:induction false} AppendAllKeeps(log: seq<ScanEvent>, es: seq<ScanEvent>)
    ensures log <= AppendAll(log, es)
    ensures Deduplicated(log) ==> Deduplicated(AppendAll(log, es))
    ensures forall i :: 0 <= i < |es| && es[i].nonce.Some? ==> Held(AppendAll(log, es), es[i])
    ensures forall d :: Held(log, d) ==> Held(AppendAll(log, es), d)
    ensures |AppendAll(log, es)| <= |log| + |es|
  {
    if |es| > 0 {
      AppendAllKeeps(log, es[..|es| - 1]);
      InsertKeeps(AppendAll(log, es[..|es| - 1]), es[|es| - 1]);
      assert forall i :: 0 <= i < |es| - 1 ==> es[..|es| - 1][i] == es[i];
    }
  }

  /** Events the log already holds change nothing, so a replayed batch is a no-op. */
  lemma {:induction false} ReplayIsNoOp(log: seq<ScanEvent>, es: seq<ScanEvent>)
    requires forall i :: 0 <= i < |es| ==> Held(log, es[i])
    ensures AppendAll(log, es) == log
  {
    if |es| > 0 {
      ReplayIsNoOp(log, es[..|es| - 1]);
    }
  }

  /** Flushing the same batch any number of times, with anything in between, stores it once. */
  lemma ReflushStoresOnce(log: seq<ScanEvent>, es: seq<ScanEvent>, between: seq<ScanEvent>)
    requires forall i :: 0 <= i < |es| ==> es[i].nonce.Some?
    ensures var later := AppendAll(AppendAll(log, es), between);
            AppendAll(later, es) == later
  {
    var once := AppendAll(log, es);
    AppendAllKeeps(log, es);
    AppendAllKeeps(once, between);
    ReplayIsNoOp(AppendAll(once, between), es);
  }

  // ---------------------------------------------------------------- queries

  function ByPiece(log: seq<ScanEvent>, pieceId: PieceId): (own: seq<ScanEvent>)
    ensures forall e :: e in own <==> e in log && e.pieceId == pieceId
  {
    if |log| == 0 then []
    else
      var rest := ByPiece(log[..|log| - 1], pieceId);
      var last := log[|log| - 1];
      assert log == log[..|log| - 1] + [last];
      if last.pieceId == pieceId then rest + [last] else rest
  }

  function ByManifest(log: seq<ScanEvent>, manifestId: Word, context: Context): (own: seq<ScanEvent>)
    ensures forall e :: e in own <==> e in log && e.manifestId == Some(manifestId) && e.context == context
  {
    if |log| == 0 then []
    else
      var rest := ByManifest(log[..|log| - 1], manifestId, context);
      var last := log[|log| - 1];
      assert log == log[..|log| - 1] + [last];
      if last.manifestId == Some(manifestId) && last.context == context then rest + [last] else rest
  }

  predicate ByScannedAt(d: ScanEvent, e: ScanEvent) {
    d.scannedAt <= e.scannedAt
  }

  /** A piece's history, oldest scan first. */
  function History(log: seq<ScanEvent>, pieceId: PieceId): seq<ScanEvent> {
    Sorting.Sort(ByScannedAt, ByPiece(log, pieceId))
  }

  /** Whatever order scans arrive in, the history holds each scan of the piece as often as the
      log does, in time order. */
  lemma HistoryIsWhole(log: seq<ScanEvent>, pieceId: PieceId)
    ensures Sorting.Sorted(ByScannedAt, History(log, pieceId))
    ensures forall i, j :: 0 <= i < j < |History(log, pieceId)| ==>
              History(log, pieceId)[i].scannedAt <= History(log, pieceId)[j].scannedAt
    ensures multiset(History(log, pieceId)) == multiset(ByPiece(log, pieceId))
    ensures forall e :: e in History(log, pieceId) <==> e in log && e.pieceId == pieceId
  {
    var own := ByPiece(log, pieceId);
    Sorting.SortSpec(ByScannedAt, own);
    assert forall i, j :: 0 <= i < j < |History(log, pieceId)| ==>
             ByScannedAt(History(log, pieceId)[i], History(log, pieceId)[j]);
    assert forall e :: e in own <==> e in multiset(own);
    assert forall e :: e in History(log, pieceId) <==> e in multiset(History(log, pieceId));
  }

  /** The pieces scanned for a manifest in one context. */
  function Scanned(log: seq<ScanEvent>, manifestId: Word, context: Context): set<PieceId> {
    set e | e in ByManifest(log, manifestId, context) :: e.pieceId
  }

  lemma ScannedGrows(log: seq<ScanEvent>, longer: seq<ScanEvent>, manifestId: Word, context: Context)
    requires log <= longer
    ensures Scanned(log, manifestId, context) <= Scanned(longer, manifestId, context)
  {
    forall p | p in Scanned(log, manifestId, context) ensures p in Scanned(longer, manifestId, context) {
      var e :| e in ByManifest(log, manifestId, context) && e.pieceId == p;
      var i :| 0 <= i < |log| && log[i] == e;
      assert longer[i] == e;
    }
  }

  // ---------------------------------------------------------------- objects

  class LifecycleStore {
    var log: seq<ScanEvent>

    constructor ()
      ensures log == []
    {
      log := [];
    }

    method Append(e: ScanEvent) returns (inserted: bool)
      modifies this
      ensures log == Insert(old(log), e)
      ensures inserted <==> !Held(old(log), e)
    {
      if Held(log, e) { return false; }
      log := log + [e];
      return true;
    }
  }

  class LifecycleIndex {
    const store: LifecycleStore

    constructor (store: LifecycleStore)
      ensures this.store == store
    {
      this.store := store;
    }

    /** Writes one scan and returns the piece's whole history, the scan included. */
    method Record(e: ScanEvent) returns (history: seq<ScanEvent>, isNew: bool)
      modifies store
      ensures store.log == Insert(old(store.log), e)
      ensures isNew <==> !Held(old(store.log), e)
      ensures history == History(store.log, e.pieceId)
    {
      isNew := store.Append(e);
      history := History(store.log, e.pieceId);
    }

    /** The offline queue's batch write counts what was new and what was a replay. */
    method RecordBatch(items: seq<ScanEvent>) returns (accepted: nat, duplicates: nat)
      modifies store
      ensures store.log == AppendAll(old(store.log), items)
      ensures accepted == |store.log| - |old(store.log)|
      ensures accepted + duplicates == |items|
    {
      accepted, duplicates := 0, 0;
      for i := 0 to |items|
        invariant store.log == AppendAll(old(store.log), items[..i])
        invariant accepted == |store.log| - |old(store.log)|
        invariant accepted + duplicates == i
      {
        assert items[..i + 1][..i] == items[..i];
        var _, isNew := Record(items[i]);
        if isNew { accepted := accepted + 1; } else { duplicates := duplicates + 1; }
      }
      TakeAll(items);
    }
  }
}
