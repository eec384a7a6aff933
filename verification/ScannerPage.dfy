/** The scanner page itself: its variables, its IndexedDB store, and what each handler does. */
module ScannerPage {
  import opened Wrappers
  import opened Seqs
  import opened ScanLog
  import opened Reconciliation
  import opened ScanQueue

  datatype Flag = Ignored | Duplicate | NotOnManifest | Accepted

  /** The object store `q`, keyed by nonce. */
  class IndexedDb {
    var items: map<Nonce, Item>

    constructor ()
      ensures items == map[]
    {
      items := map[];
    }

    method Put(item: Item)
      modifies this
      ensures items == old(items)[item.nonce := item]
    {
      items := items[item.nonce := item];
    }

    method Delete(nonce: Nonce)
      modifies this
      ensures items == old(items) - {nonce}
    {
      items := items - {nonce};
    }
  }

  lemma NoncesSnoc(items: seq<Item>, last: Item)
    ensures NoncesOf(items + [last]) == NoncesOf(items) + {last.nonce}
  {
    assert forall n :: n in NoncesOf(items + [last]) <==> n in NoncesOf(items) + {last.nonce} by {
      forall n | n in NoncesOf(items) + {last.nonce} ensures n in NoncesOf(items + [last]) {
        if n == last.nonce {
          assert last in items + [last];
        } else {
          var i :| i in items && i.nonce == n;
          assert i in items + [last];
        }
      }
    }
  }

  /** The items of `all` that belong to one session, in order. */
  function OfSession(all: seq<Item>, token: nat): (own: seq<Item>)
    ensures forall i :: i in own <==> i in all && i.session == token
  {
    if |all| == 0 then []
    else
      var rest := OfSession(all[..|all| - 1], token);
      var last := all[|all| - 1];
      assert all == all[..|all| - 1] + [last];
      if last.session == token then rest + [last] else rest
  }

  lemma {:induction false} OfSessionDistinct(all: seq<Item>, token: nat)
    requires forall j, k :: 0 <= j < k < |all| ==> all[j] != all[k]
    ensures forall j, k :: 0 <= j < k < |OfSession(all, token)| ==> OfSession(all, token)[j] != OfSession(all, token)[k]
  {
    if |all| > 0 {
      OfSessionDistinct(all[..|all| - 1], token);
    }
  }

  /** What getAll returns: every stored item once. */
  ghost predicate AllOf(all: seq<Item>, stored: map<Nonce, Item>) {
    && (forall i :: i in all <==> i.nonce in stored && stored[i.nonce] == i)
    && (forall j, k :: 0 <= j < k < |all| ==> all[j] != all[k])
  }

  class Scanner {
    const session: Session
    const db: IndexedDb
    var queue: seq<Item>
    var seen: set<PieceId>
    var flushing: bool
    var lastAt: int
    /** The suspended stretches: enqueues waiting for the database, and the flush under way. */
    var unsaved: set<Item>
    var flight: Flight

    ghost predicate Valid()
      reads this
    {
      flushing <==> !flight.Idle?
    }

    ghost function View(): Page
      reads this
    {
      Page(queue, seen, unsaved, flight, lastAt)
    }

    constructor (session: Session, db: IndexedDb)
      ensures Valid() && View() == EMPTY_PAGE && this.session == session && this.db == db
    {
      this.session, this.db := session, db;
      queue, seen, flushing, lastAt, unsaved, flight := [], {}, false, 0, {}, Idle;
    }

    /** One decoded frame. A code without a piece id changes nothing, not even the debounce
        clock; duplicates and strangers are flagged but never queued. */
    method HandlePayload(payload: Option<PieceId>, nonce: Nonce, now: int) returns (flag: Flag)
      requires Valid()
      modifies this
      ensures Valid() && old(queue) <= queue
      ensures View() == (if payload.None? then old(View())
                         else ScanQueue.HandlePayload(old(View()), session, payload.value, nonce, now))
      ensures flag.Accepted? <==> queue != old(queue)
      ensures flag.Ignored? <==> payload.None? || now - old(lastAt) < 350
      ensures !flag.Ignored? ==>
                && (flag.Duplicate? <==> payload.value in old(seen))
                && (flag.NotOnManifest? <==> payload.value !in old(seen) && payload.value !in session.pieces)
    {
      if now - lastAt < DEBOUNCE_MS || payload.None? { return Ignored; }
      var pieceId := payload.value;
      lastAt := now;
      if pieceId in seen { return Duplicate; }
      if pieceId !in session.pieces { return NotOnManifest; }
      seen := seen + {pieceId};
      var item := Item(nonce, session.token, pieceId, session.manifestId);
      queue := queue + [item];
      unsaved := unsaved + {item};
      return Accepted;
    }

    /** The number of missing pieces on the screen. */
    method Render() returns (missing: int)
      requires Valid()
      ensures missing == |session.pieces| - |seen|
      ensures NoRepeats(session.pieces) && seen <= Members(session.pieces) ==>
                missing >= 0 && (missing == 0 <==> seen == Members(session.pieces))
    {
      missing := |session.pieces| - |seen|;
      if NoRepeats(session.pieces) && seen <= Members(session.pieces) {
        NoRepeatsCount(session.pieces);
        SubsetSize(seen, Members(session.pieces));
        if missing == 0 {
          SameSizeSubset(seen, Members(session.pieces));
        }
      }
    }

    /** enqueue after the database opened: store the item, then try to flush. */
    method Save(item: Item, online: bool, post: nat) returns (sent: Option<seq<Item>>)
      requires Valid() && item in unsaved
      modifies this, db
      ensures Valid() && db.items == old(db.items)[item.nonce := item]
      ensures View() == ScanQueue.StartFlush(old(View()).(unsaved := old(unsaved) - {item}), online, post)
      ensures sent == (if WillPost(old(View()), online) then Some(Batch(old(queue))) else None)
    {
      unsaved := unsaved - {item};
      db.Put(item);
      sent := StartFlush(online, post);
    }

    /** flush up to its fetch: nothing is sent while another flush runs. */
    method StartFlush(online: bool, post: nat) returns (sent: Option<seq<Item>>)
      requires Valid()
      modifies this
      ensures Valid() && View() == ScanQueue.StartFlush(old(View()), online, post)
      ensures sent == (if WillPost(old(View()), online) then Some(Batch(old(queue))) else None)
    {
      if flushing || !online || |queue| == 0 { return None; }
      flushing := true;
      var batch := if |queue| <= BATCH then queue else queue[..BATCH];
      flight := Posting(batch, post);
      return Some(batch);
    }

    /** The response arrived; a rejected post leaves everything queued. */
    method Answered(ok: bool)
      requires Valid() && flight.Posting?
      modifies this
      ensures Valid()
      ensures View() == old(View()).(flight := if ok then Deleting(old(flight).batch) else Idle)
    {
      if ok {
        flight := Deleting(flight.batch);
      } else {
        flight, flushing := Idle, false;
      }
    }

    /** flush's catch: stay queued. */
    method FlushFailed()
      requires Valid() && !flight.Idle?
      modifies this
      ensures Valid() && View() == old(View()).(flight := Idle)
    {
      flight, flushing := Idle, false;
    }

    /** The end of an acknowledged flush: the batch leaves the store and the queue. */
    method FinishFlush()
      requires Valid() && flight.Deleting? && |flight.batch| <= |queue|
      modifies this, db
      ensures Valid() && View() == ScanQueue.FinishFlush(old(View()))
      ensures db.items == old(db.items) - NoncesOf(old(flight).batch)
    {
      var batch := flight.batch;
      for k := 0 to |batch|
        modifies db
        invariant db.items == old(db.items) - NoncesOf(batch[..k])
      {
        db.Delete(batch[k].nonce);
        TakeMore(batch, k);
        NoncesSnoc(batch[..k], batch[k]);
      }
      TakeAll(batch);
      queue := queue[|batch|..];
      flight, flushing := Idle, false;
    }

    /** A fresh page takes over the stored items of its own session. */
    method LoadQueue(all: seq<Item>)
      requires Valid() && View() == EMPTY_PAGE && AllOf(all, db.items)
      modifies this
      ensures Valid() && Lists(queue, db.items, session.token)
      ensures View() == EMPTY_PAGE.(queue := queue, seen := set i | i in queue :: i.pieceId)
    {
      var own: seq<Item> := [];
      for k := 0 to |all|
        modifies {}
        invariant own == OfSession(all[..k], session.token)
      {
        assert all[..k + 1][..k] == all[..k];
        if all[k].session == session.token { own := own + [all[k]]; }
      }
      TakeAll(all);
      OfSessionDistinct(all, session.token);
      queue := own;
      for k := 0 to |own|
        modifies this`seen
        invariant seen == set i | i in own[..k] :: i.pieceId
      {
        TakeMore(own, k);
        SeenSnoc(own[..k], own[k]);
        seen := seen + {own[k].pieceId};
      }
      TakeAll(own);
    }
  }

  lemma SeenSnoc(items: seq<Item>, last: Item)
    ensures (set i | i in items + [last] :: i.pieceId) == (set i | i in items :: i.pieceId) + {last.pieceId}
  {
    var more := set i | i in items + [last] :: i.pieceId;
    forall p | p in (set i | i in items :: i.pieceId) + {last.pieceId} ensures p in more {
      if p == last.pieceId {
        assert last in items + [last];
      } else {
        var i :| i in items && i.pieceId == p;
        assert i in items + [last];
      }
    }
  }
}
