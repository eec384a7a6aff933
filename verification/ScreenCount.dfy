/**
 * The count on the scanner's screen, which the finish button passes on to the receiver's
 * signing link, against the count that will be signed: how far they can be apart, in both
 * directions, and exactly when they agree.
 */
module ScreenCount {
  import opened Wrappers
  import opened ScanLog
  import opened Reconciliation
  import opened ScanQueue
  import opened ScanQueueSafety

  /** The manifest's pieces the server holds an unloading scan of. */
  function ReceivedPieces(x: System, s: Session): set<PieceId> {
    Scanned(x.log, s.manifestId, Unloading) * Members(s.pieces)
  }

  function QueuedPieces(x: System): set<PieceId> {
    set i | i in x.page.queue :: i.pieceId
  }

  /** What the page could check before it leaves: nothing it still holds is news to the server.
      An empty queue will do. */
  predicate AllQueuedReceived(x: System, s: Session) {
    forall i :: i in x.page.queue ==> i.pieceId in Scanned(x.log, s.manifestId, Unloading)
  }

  function ReconciledNow(x: System, s: Session): ReconcileResult {
    ReconcileOf(|s.pieces|, s.pieces, ByManifest(x.log, s.manifestId, Unloading))
  }

  // ---------------------------------------------------------------- at any moment

  /** A counted piece is received, or still queued. So over an empty queue the screen never counts
      more than will be signed. */
  lemma CountedIsReceivedOrQueued(x: System, s: Session)
    requires Sound(x, s)
    ensures x.page.seen <= ReceivedPieces(x, s) + QueuedPieces(x)
    ensures x.page.queue == [] ==> |x.page.seen| <= ReconciledNow(x, s).scanned
  {
    forall p | p in x.page.seen && p !in QueuedPieces(x) ensures p in ReceivedPieces(x, s) {
      assert Backed(x, s, p);
      var i: Item :| i.pieceId == p && i.manifestId == s.manifestId && Known(x.issued, i)
                     && (i in x.page.queue || OnServer(x.log, i));
      OurEventIsScan(x, s, i);
    }
    SignedIsReceived(x, s);
    if x.page.queue == [] {
      SubsetSize(x.page.seen, ReceivedPieces(x, s));
    }
  }

  /** The count that gets signed is the number of received pieces. */
  lemma SignedIsReceived(x: System, s: Session)
    ensures ReconciledNow(x, s).scanned == |ReceivedPieces(x, s)|
  {
    ScannedIsMembers(x.log, s.manifestId, Unloading);
    ReconcileMeaning(|s.pieces|, s.pieces, ByManifest(x.log, s.manifestId, Unloading));
  }

  lemma QueuedReceivedIff(x: System, s: Session)
    requires OnManifest(x, s)
    ensures AllQueuedReceived(x, s) <==> QueuedPieces(x) <= ReceivedPieces(x, s)
  {
    forall i | i in x.page.queue ensures i.pieceId in QueuedPieces(x) && i.pieceId in Members(s.pieces) {
      assert Accepted(i, s);
    }
  }

  /** When the screen says complete, nothing is missing exactly if every queued piece has been
      received. So it can be believed over an empty queue, but the finish button does not look. */
  lemma CompleteScreenIsCompleteIff(x: System, s: Session)
    requires Sound(x, s) && NoRepeats(s.pieces)
    requires |s.pieces| - |x.page.seen| == 0
    ensures ReconciledNow(x, s).missing == 0 <==> AllQueuedReceived(x, s)
    ensures x.page.queue == [] ==> ReconciledNow(x, s).missing == 0
  {
    NoneMissing(|s.pieces|, s.pieces, ByManifest(x.log, s.manifestId, Unloading));
    ScannedIsMembers(x.log, s.manifestId, Unloading);
    QueuedReceivedIff(x, s);
    CountedIsReceivedOrQueued(x, s);
    NoRepeatsCount(s.pieces);
    assert x.page.seen <= Members(s.pieces);
    SameSizeSubset(x.page.seen, Members(s.pieces));
  }

  // ---------------------------------------------------------------- over a run

  predicate QueueCounted(x: System) {
    QueuedPieces(x) <= x.page.seen
  }

  lemma StepKeepsQueueCounted(x: System, s: Session, e: Event)
    requires Possible(x, s, e) && QueueCounted(x)
    ensures QueueCounted(Step(x, s, e))
  {
    var y := Step(x, s, e);
    forall i | i in y.page.queue ensures i.pieceId in y.page.seen {
      assert i in x.page.queue ==> i.pieceId in QueuedPieces(x);
    }
  }

  lemma {:induction false} RunKeepsQueueCounted(x: System, s: Session, es: seq<Event>)
    requires PossibleRun(x, s, es) && QueueCounted(x)
    ensures QueueCounted(Run(x, s, es))
    decreases |es|
  {
    if |es| > 0 {
      StepKeepsQueueCounted(x, s, es[0]);
      RunKeepsQueueCounted(Step(x, s, es[0]), s, es[1..]);
    }
  }

  /** The step puts p on the screen: a scan of it that is not debounced, or a reload that finds
      it in the store. */
  predicate Shows(x: System, s: Session, e: Event, p: PieceId) {
    match e
    case Scan(q, _, now) => q == p && now - x.page.lastAt >= 350 && p in s.pieces
    case Reload(items) => exists i :: i in items && i.pieceId == p
    case _ => false
  }

  predicate NoReload(es: seq<Event>) {
    forall k :: 0 <= k < |es| ==> !es[k].Reload?
  }

  /** Some step of the run shows p, and the page is not reloaded after it. */
  ghost predicate ShownSinceReload(x: System, s: Session, es: seq<Event>, p: PieceId)
    requires PossibleRun(x, s, es)
    decreases |es|
  {
    |es| > 0 && ((Shows(x, s, es[0], p) && NoReload(es[1..])) || ShownSinceReload(Step(x, s, es[0]), s, es[1..], p))
  }

  lemma NoReloadFirst(es: seq<Event>)
    requires |es| > 0
    ensures NoReload(es) <==> !es[0].Reload? && NoReload(es[1..])
  {
    if !es[0].Reload? && NoReload(es[1..]) {
      assert forall k :: 0 < k < |es| ==> es[k] == es[1..][k - 1];
    }
  }

  lemma SeenAfterStep(x: System, s: Session, e: Event, p: PieceId)
    requires Possible(x, s, e)
    ensures p in Step(x, s, e).page.seen <==> (p in x.page.seen && !e.Reload?) || Shows(x, s, e, p)
  {
  }

  /** What the page counts at the end of a run, told from its events. */
  lemma {:induction false} CountedIff(x: System, s: Session, es: seq<Event>, p: PieceId)
    requires PossibleRun(x, s, es)
    ensures p in Run(x, s, es).page.seen <==> (p in x.page.seen && NoReload(es)) || ShownSinceReload(x, s, es, p)
    decreases |es|
  {
    if |es| > 0 {
      NoReloadFirst(es);
      SeenAfterStep(x, s, es[0], p);
      CountedIff(Step(x, s, es[0]), s, es[1..], p);
    }
  }

  /** Every received piece was shown by this page since its last reload. */
  ghost predicate AllReceivedShown(log: seq<ScanEvent>, s: Session, es: seq<Event>)
    requires PossibleRun(Start(log), s, es)
  {
    forall p :: p in ReceivedPieces(Run(Start(log), s, es), s) ==> ShownSinceReload(Start(log), s, es, p)
  }

  lemma AllReceivedShownIff(log: seq<ScanEvent>, s: Session, es: seq<Event>)
    requires PossibleRun(Start(log), s, es)
    ensures var x := Run(Start(log), s, es);
            AllReceivedShown(log, s, es) <==> ReceivedPieces(x, s) <= x.page.seen
  {
    var x := Run(Start(log), s, es);
    forall p ensures p in x.page.seen <==> ShownSinceReload(Start(log), s, es, p) {
      CountedIff(Start(log), s, es, p);
    }
  }

  /** How far screen and signature are apart: above by the queued pieces not received, below by
      the received pieces not counted. */
  lemma ScreenBalance(x: System, s: Session)
    requires Sound(x, s) && QueueCounted(x)
    ensures |x.page.seen| - ReconciledNow(x, s).scanned
            == |QueuedPieces(x) - ReceivedPieces(x, s)| - |ReceivedPieces(x, s) - x.page.seen|
  {
    SignedIsReceived(x, s);
    CountedIsReceivedOrQueued(x, s);
    Differences(x.page.seen, ReceivedPieces(x, s), QueuedPieces(x));
  }

  lemma Differences(seen: set<PieceId>, received: set<PieceId>, queued: set<PieceId>)
    requires queued <= seen <= received + queued
    ensures |seen| - |received| == |queued - received| - |received - seen|
  {
    assert seen == (seen * received) + (queued - received);
    assert received == (seen * received) + (received - seen);
  }

  /** The screen's count against the signed count, after any run of any page. If every queued
      piece has been received the screen is never above, and equal exactly if every received
      piece was shown since the last reload. If those were all shown it is never below, and
      equal exactly if every queued piece has been received. In general the two errors have to
      cancel out. */
  lemma ScreenCountIffAllSeen(log: seq<ScanEvent>, s: Session, es: seq<Event>)
    requires Deduplicated(log) && PossibleRun(Start(log), s, es)
    ensures var x := Run(Start(log), s, es);
            var shown, signed := |x.page.seen|, ReconciledNow(x, s).scanned;
            && (AllQueuedReceived(x, s) ==> shown <= signed && (shown == signed <==> AllReceivedShown(log, s, es)))
            && (AllReceivedShown(log, s, es) ==> signed <= shown && (shown == signed <==> AllQueuedReceived(x, s)))
            && (shown == signed <==>
                  |QueuedPieces(x) - ReceivedPieces(x, s)| == |ReceivedPieces(x, s) - x.page.seen|)
  {
    var x := Run(Start(log), s, es);
    EveryRunIsSound(log, s, es);
    RunKeepsQueueCounted(Start(log), s, es);
    ScreenBalance(x, s);
    AllReceivedShownIff(log, s, es);
    QueuedReceivedIff(x, s);
    NoneLeft(QueuedPieces(x), ReceivedPieces(x, s));
    NoneLeft(ReceivedPieces(x, s), x.page.seen);
  }

  // ---------------------------------------------------------------- a page on its own

  /** Nobody else unloads this manifest, and the page is not reloaded. */
  predicate Alone(s: Session, e: Event) {
    && !e.Reload?
    && (e.OtherScan? ==> !(e.event.manifestId == Some(s.manifestId) && e.event.context == Unloading))
  }

  /** Everything posted or received is on the screen. */
  ghost predicate OnScreen(x: System, s: Session) {
    && QueueCounted(x)
    && (forall k, i :: 0 <= k < |x.posts| && i in x.posts[k] ==> i.pieceId in x.page.seen)
    && Scanned(x.log, s.manifestId, Unloading) <= x.page.seen
  }

  lemma DeliveryOnScreen(x: System, s: Session, post: nat, at: int)
    requires OnScreen(x, s) && post < |x.posts|
    ensures OnScreen(Step(x, s, Deliver(post, at)), s)
  {
    var y := Step(x, s, Deliver(post, at));
    var es := EventsOf(x.posts[post], at);
    forall p | p in Scanned(y.log, s.manifestId, Unloading) ensures p in x.page.seen {
      var e :| e in ByManifest(y.log, s.manifestId, Unloading) && e.pieceId == p;
      AppendAllMembers(x.log, es, e);
      if e in x.log {
        assert e in ByManifest(x.log, s.manifestId, Unloading);
      } else {
        var k :| 0 <= k < |es| && es[k] == e;
        assert x.posts[post][k] in x.posts[post];
      }
    }
  }

  lemma OtherScanOnScreen(x: System, s: Session, e: ScanEvent)
    requires OnScreen(x, s) && Alone(s, OtherScan(e)) && Possible(x, s, OtherScan(e))
    ensures OnScreen(Step(x, s, OtherScan(e)), s)
  {
    var y := Step(x, s, OtherScan(e));
    forall p | p in Scanned(y.log, s.manifestId, Unloading) ensures p in x.page.seen {
      var d :| d in ByManifest(y.log, s.manifestId, Unloading) && d.pieceId == p;
      assert d in x.log;
      assert d in ByManifest(x.log, s.manifestId, Unloading);
    }
  }

  lemma LaunchOnScreen(x: System, s: Session, online: bool)
    requires OnScreen(x, s)
    ensures OnScreen(Launch(x, online), s)
  {
    var y := Launch(x, online);
    forall k, i | 0 <= k < |y.posts| && i in y.posts[k] ensures i.pieceId in y.page.seen {
      if k == |x.posts| {
        assert i in x.page.queue && i.pieceId in QueuedPieces(x);
      }
    }
  }

  lemma StepOnScreen(x: System, s: Session, e: Event)
    requires OnScreen(x, s) && Possible(x, s, e) && Alone(s, e)
    ensures OnScreen(Step(x, s, e), s)
  {
    StepKeepsQueueCounted(x, s, e);
    match e
    case Deliver(post, at) => DeliveryOnScreen(x, s, post, at);
    case OtherScan(event) => OtherScanOnScreen(x, s, event);
    case Flush(online) => LaunchOnScreen(x, s, online);
    case Save(item, online) =>
      LaunchOnScreen(x.(page := x.page.(unsaved := x.page.unsaved - {item}),
                        idb := x.idb[item.nonce := item], saved := x.saved + {item}), s, online);
    case _ =>
  }

  lemma {:induction false} RunOnScreen(x: System, s: Session, es: seq<Event>)
    requires PossibleRun(x, s, es) && OnScreen(x, s) && forall e :: e in es ==> Alone(s, e)
    ensures OnScreen(Run(x, s, es), s)
    decreases |es|
  {
    if |es| > 0 {
      StepOnScreen(x, s, es[0]);
      RunOnScreen(Step(x, s, es[0]), s, es[1..]);
    }
  }

  /** A page that is never reloaded and has the manifest to itself never counts too little, and
      its count is the signed one exactly if every queued piece has been received. */
  lemma LonePageCountIff(log: seq<ScanEvent>, s: Session, es: seq<Event>)
    requires Deduplicated(log) && PossibleRun(Start(log), s, es)
    requires Scanned(log, s.manifestId, Unloading) == {} && forall e :: e in es ==> Alone(s, e)
    ensures var x := Run(Start(log), s, es);
            && ReconciledNow(x, s).scanned <= |x.page.seen|
            && (|x.page.seen| == ReconciledNow(x, s).scanned <==> AllQueuedReceived(x, s))
  {
    RunOnScreen(Start(log), s, es);
    AllReceivedShownIff(log, s, es);
    ScreenCountIffAllSeen(log, s, es);
  }

  // ---------------------------------------------------------------- the finish button

  /** The finish button waits for one flush. Even undisturbed, that sends fifty items and leaves
      the rest queued. */
  lemma OneFlushSendsFifty(x: System, s: Session, at: int)
    requires Sound(x, s) && x.page.flight.Idle? && |x.page.queue| > 0
    ensures var es := [Flush(true), Deliver(|x.posts|, at), Acknowledge, Finish];
            && PossibleRun(x, s, es)
            && Run(x, s, es).page.queue == x.page.queue[|Batch(x.page.queue)|..]
            && (Run(x, s, es).page.queue == [] <==> |x.page.queue| <= 50)
  {
    var sent := Step(x, s, Flush(true));
    var stored := Step(sent, s, Deliver(|x.posts|, at));
    var answered := Step(stored, s, Acknowledge);
    var done := Step(answered, s, Finish);
    RunCons(answered, s, Finish, done, []);
    RunCons(stored, s, Acknowledge, answered, [Finish] + []);
    RunCons(sent, s, Deliver(|x.posts|, at), stored, [Acknowledge] + ([Finish] + []));
    RunCons(x, s, Flush(true), sent, [Deliver(|x.posts|, at)] + ([Acknowledge] + ([Finish] + [])));
    assert [Flush(true), Deliver(|x.posts|, at), Acknowledge, Finish]
           == [Flush(true)] + ([Deliver(|x.posts|, at)] + ([Acknowledge] + ([Finish] + [])));
  }
}
