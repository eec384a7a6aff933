/** What every interleaving of the offline scanner keeps. */
module ScanQueueSafety {
  import opened Wrappers
  import opened ScanLog
  import opened ScanQueue

  // ---------------------------------------------------------------- log facts

  lemma OnServerAnyTime(log: seq<ScanEvent>, i: Item, at: int)
    ensures Held(log, EventOf(i, at)) <==> OnServer(log, i)
  {
    if Held(log, EventOf(i, at)) {
      var k :| 0 <= k < |log| && Conflicts(EventOf(i, at), log[k]);
      assert Conflicts(EventOf(i, 0), log[k]);
    }
    if OnServer(log, i) {
      var k :| 0 <= k < |log| && Conflicts(EventOf(i, 0), log[k]);
      assert Conflicts(EventOf(i, at), log[k]);
    }
  }

  lemma OnServerStays(log: seq<ScanEvent>, longer: seq<ScanEvent>)
    requires log <= longer
    ensures forall i :: OnServer(log, i) ==> OnServer(longer, i)
  {
    forall i | OnServer(log, i) ensures OnServer(longer, i) {
      HeldInLonger(log, longer, EventOf(i, 0));
    }
  }

  lemma {:induction false} AppendAllMembers(log: seq<ScanEvent>, es: seq<ScanEvent>, e: ScanEvent)
    requires e in AppendAll(log, es)
    ensures e in log || e in es
  {
    if |es| > 0 {
      var before := AppendAll(log, es[..|es| - 1]);
      if e in before {
        AppendAllMembers(log, es[..|es| - 1], e);
      }
      assert es == es[..|es| - 1] + [es[|es| - 1]];
    }
  }

  /** A delivered batch is held afterwards, in one transaction. */
  lemma DeliveredIsHeld(log: seq<ScanEvent>, items: seq<Item>, at: int)
    ensures forall i :: i in items ==> OnServer(AppendAll(log, EventsOf(items, at)), i)
  {
    var es := EventsOf(items, at);
    AppendAllKeeps(log, es);
    forall i | i in items ensures OnServer(AppendAll(log, es), i) {
      var k :| 0 <= k < |items| && items[k] == i;
      assert es[k] == EventOf(i, at) && Held(AppendAll(log, es), es[k]);
      OnServerAnyTime(AppendAll(log, es), i, at);
    }
  }

  // ---------------------------------------------------------------- each step

  /** The invariants survive a longer log in which our nonces still carry our items. */
  lemma LongerLogKeepsSound(x: System, s: Session, y: System)
    requires Sound(x, s) && x.log <= y.log
    requires y == x.(log := y.log, delivered := y.delivered)
    requires Deduplicated(y.log) && LogIsOurs(y) && DeliveredHeld(y)
    ensures Sound(y, s)
  {
    OnServerStays(x.log, y.log);
    forall p | p in y.page.seen ensures Backed(y, s, p) {
      assert Backed(x, s, p);
      var i: Item :| i.pieceId == p && i.manifestId == s.manifestId && Known(x.issued, i)
                     && (i in x.page.queue || OnServer(x.log, i));
      assert Known(y.issued, i);
    }
  }

  lemma DeliverKeepsSound(x: System, s: Session, post: nat, at: int)
    requires Sound(x, s) && post < |x.posts|
    ensures Sound(Step(x, s, Deliver(post, at)), s)
  {
    var items := x.posts[post];
    var es := EventsOf(items, at);
    var y := Step(x, s, Deliver(post, at));
    AppendAllKeeps(x.log, es);
    DeliveredIsHeld(x.log, items, at);
    OnServerStays(x.log, y.log);
    forall k | 0 <= k < |y.log| && y.log[k].nonce.Some? && y.log[k].nonce.value in y.issued
      ensures y.log[k] == EventOf(y.issued[y.log[k].nonce.value], y.log[k].scannedAt)
    {
      AppendAllMembers(x.log, es, y.log[k]);
      if y.log[k] in x.log {
        var j :| 0 <= j < |x.log| && x.log[j] == y.log[k];
      } else {
        var j :| 0 <= j < |es| && es[j] == y.log[k];
        assert items[j] in x.posts[post] && Known(x.issued, items[j]);
      }
    }
    LongerLogKeepsSound(x, s, y);
  }

  lemma OtherScanKeepsSound(x: System, s: Session, e: ScanEvent)
    requires Sound(x, s) && Possible(x, s, OtherScan(e))
    ensures Sound(Step(x, s, OtherScan(e)), s)
  {
    var y := Step(x, s, OtherScan(e));
    InsertKeeps(x.log, e);
    OnServerStays(x.log, y.log);
    LongerLogKeepsSound(x, s, y);
  }

  lemma ScanKeepsSound(x: System, s: Session, pieceId: PieceId, nonce: Nonce, now: int)
    requires Sound(x, s) && Unused(x, nonce)
    ensures Sound(Step(x, s, Scan(pieceId, nonce, now)), s)
  {
    var y := Step(x, s, Scan(pieceId, nonce, now));
    var item := Item(nonce, s.token, pieceId, s.manifestId);
    assert forall i :: Known(x.issued, i) ==> Known(y.issued, i);
    forall p | p in y.page.seen ensures Backed(y, s, p) {
      if p in x.page.seen {
        assert Backed(x, s, p);
        var i: Item :| i.pieceId == p && i.manifestId == s.manifestId && Known(x.issued, i)
                       && (i in x.page.queue || OnServer(x.log, i));
        assert Known(y.issued, i) && (i in y.page.queue || OnServer(y.log, i));
      } else {
        assert item in y.page.queue && Known(y.issued, item);
      }
    }
  }

  lemma LaunchKeepsSound(x: System, s: Session, online: bool)
    requires Sound(x, s)
    ensures Sound(Launch(x, online), s)
  {
    var y := Launch(x, online);
    if WillPost(x.page, online) {
      var batch := Batch(x.page.queue);
      assert batch <= x.page.queue;
      forall k, i | 0 <= k < |y.posts| && i in y.posts[k] ensures Known(y.issued, i) {
        if k == |x.posts| {
          assert i in x.page.queue;
        }
      }
      forall p | p in y.page.seen ensures Backed(y, s, p) {
        assert Backed(x, s, p);
        var i: Item :| i.pieceId == p && i.manifestId == s.manifestId && Known(x.issued, i)
                       && (i in x.page.queue || OnServer(x.log, i));
        assert Known(y.issued, i);
      }
    }
  }

  /** Steps that change neither the queue, the counted pieces nor the log keep them backed. */
  lemma SameQueueStaysBacked(x: System, y: System, s: Session)
    requires y.page.queue == x.page.queue && y.page.seen == x.page.seen
    requires y.log == x.log && y.issued == x.issued
    requires forall p :: p in x.page.seen ==> Backed(x, s, p)
    ensures forall p :: p in y.page.seen ==> Backed(y, s, p)
  {
    forall p | p in y.page.seen ensures Backed(y, s, p) {
      assert Backed(x, s, p);
      var i: Item :| i.pieceId == p && i.manifestId == s.manifestId && Known(x.issued, i)
                     && (i in x.page.queue || OnServer(x.log, i));
      assert Known(y.issued, i);
    }
  }

  lemma SaveKeepsSound(x: System, s: Session, item: Item, online: bool)
    requires Sound(x, s) && item in x.page.unsaved
    ensures Sound(Step(x, s, Save(item, online)), s)
  {
    var y := x.(page := x.page.(unsaved := x.page.unsaved - {item}),
                idb := x.idb[item.nonce := item], saved := x.saved + {item});
    SameQueueStaysBacked(x, y, s);
    forall i | i in y.saved ensures (i.nonce in y.idb && y.idb[i.nonce] == i) || OnServer(y.log, i) {
      if i.nonce == item.nonce {
        assert Known(x.issued, i) && Known(x.issued, item);
      }
    }
    LaunchKeepsSound(y, s, online);
  }

  lemma AcknowledgeKeepsSound(x: System, s: Session)
    requires Sound(x, s) && Possible(x, s, Acknowledge)
    ensures Sound(Step(x, s, Acknowledge), s)
  {
    SameQueueStaysBacked(x, Step(x, s, Acknowledge), s);
  }

  lemma FailKeepsSound(x: System, s: Session)
    requires Sound(x, s) && Possible(x, s, FlushFails)
    ensures Sound(Step(x, s, FlushFails), s)
  {
    SameQueueStaysBacked(x, Step(x, s, FlushFails), s);
  }

  /** Finishing a flush drops exactly the batch it sent, all of it on the server. */
  lemma FinishKeepsSound(x: System, s: Session)
    requires Sound(x, s) && Possible(x, s, Finish)
    ensures Sound(Step(x, s, Finish), s)
    ensures x.page.queue == x.page.flight.batch + Step(x, s, Finish).page.queue
    ensures forall n :: n in x.idb && n !in Step(x, s, Finish).idb ==> OnServer(x.log, x.idb[n])
  {
    var batch := x.page.flight.batch;
    var y := Step(x, s, Finish);
    assert x.page.queue == batch + y.page.queue;
    forall n | n in x.idb && n in NoncesOf(batch) ensures OnServer(x.log, x.idb[n]) {
      var i :| i in batch && i.nonce == n;
      assert i in x.page.queue && Known(x.issued, i) && Known(x.issued, x.idb[n]);
    }
    forall p | p in y.page.seen ensures Backed(y, s, p) {
      assert Backed(x, s, p);
      var i: Item :| i.pieceId == p && i.manifestId == s.manifestId && Known(x.issued, i)
                     && (i in x.page.queue || OnServer(x.log, i));
      assert Known(y.issued, i) && (i in y.page.queue || OnServer(y.log, i));
    }
  }

  lemma ReloadKeepsSound(x: System, s: Session, items: seq<Item>)
    requires Sound(x, s) && Lists(items, x.idb, s.token)
    ensures Sound(Step(x, s, Reload(items)), s)
  {
    var y := Step(x, s, Reload(items));
    forall p | p in y.page.seen ensures Backed(y, s, p) {
      var i :| i in items && i.pieceId == p;
      assert Known(y.issued, i) && i in y.page.queue;
    }
  }

  lemma StepKeepsSound(x: System, s: Session, e: Event)
    requires Sound(x, s) && Possible(x, s, e)
    ensures Sound(Step(x, s, e), s)
  {
    match e
    case Scan(pieceId, nonce, now) => ScanKeepsSound(x, s, pieceId, nonce, now);
    case Save(item, online) => SaveKeepsSound(x, s, item, online);
    case Flush(online) => LaunchKeepsSound(x, s, online);
    case Deliver(post, at) => DeliverKeepsSound(x, s, post, at);
    case Acknowledge => AcknowledgeKeepsSound(x, s);
    case Finish => FinishKeepsSound(x, s);
    case FlushFails => FailKeepsSound(x, s);
    case Reload(items) => ReloadKeepsSound(x, s, items);
    case OtherScan(event) => OtherScanKeepsSound(x, s, event);
  }

  // ---------------------------------------------------------------- main results

  /** In every interleaving: one event per (piece, nonce), nothing saved or counted is lost,
      and the batch in flight is the front of the queue. */
  lemma {:induction false} RunKeepsSound(x: System, s: Session, es: seq<Event>)
    requires Sound(x, s) && PossibleRun(x, s, es)
    ensures Sound(Run(x, s, es), s)
    decreases |es|
  {
    if |es| > 0 {
      StepKeepsSound(x, s, es[0]);
      RunKeepsSound(Step(x, s, es[0]), s, es[1..]);
    }
  }

  lemma StartIsSound(log: seq<ScanEvent>, s: Session)
    requires Deduplicated(log)
    ensures Sound(Start(log), s)
  {
  }

  /** In particular from a fresh device on, whatever the log already held. */
  lemma EveryRunIsSound(log: seq<ScanEvent>, s: Session, es: seq<Event>)
    requires Deduplicated(log) && PossibleRun(Start(log), s, es)
    ensures Sound(Run(Start(log), s, es), s)
  {
    StartIsSound(log, s);
    RunKeepsSound(Start(log), s, es);
  }

  /** IndexedDB forgets an item only when the server holds it, whatever the step. */
  lemma ForgottenOnlyIfHeld(x: System, s: Session, e: Event, n: Nonce)
    requires Sound(x, s) && Possible(x, s, e)
    requires n in x.idb && n !in Step(x, s, e).idb
    ensures e == Finish && OnServer(x.log, x.idb[n])
  {
    assert e.Finish?;
    FinishKeepsSound(x, s);
  }

  /** A post that was already processed changes nothing on the server, nor therefore any
      reconciliation, no matter how often and how late it arrives again. */
  lemma ReplayChangesNothing(x: System, s: Session, post: nat, at: int)
    requires Sound(x, s) && post in x.delivered
    ensures post < |x.posts| && Step(x, s, Deliver(post, at)).log == x.log
  {
    var items := x.posts[post];
    forall k | 0 <= k < |items| ensures Held(x.log, EventsOf(items, at)[k]) {
      assert items[k] in items;
      OnServerAnyTime(x.log, items[k], at);
    }
    ReplayIsNoOp(x.log, EventsOf(items, at));
  }

  lemma OurEventIsScan(x: System, s: Session, i: Item)
    requires Sound(x, s) && Known(x.issued, i) && OnServer(x.log, i)
    ensures i.pieceId in Scanned(x.log, i.manifestId, Unloading)
  {
    var k :| 0 <= k < |x.log| && Conflicts(EventOf(i, 0), x.log[k]);
    assert x.log[k].nonce == Some(i.nonce);
    assert x.log[k] == EventOf(i, x.log[k].scannedAt);
    assert x.log[k] in ByManifest(x.log, i.manifestId, Unloading);
  }
}
