/**
 * The offline scanner: a queue in memory, a copy in IndexedDB, posts that may be lost,
 * delivered late or delivered twice, reloads at any moment, and a server that keeps one
 * event per (piece, nonce). Each stretch of client code between two awaits is one step.
 */
module ScanQueue {
  import opened Wrappers
  import opened ByteStrings
  import opened ScanLog

  /** The signed scan session: which manifest is being scanned in. */
  datatype Session = Session(token: nat, manifestId: Word, pieces: seq<PieceId>)

  datatype Item = Item(nonce: Nonce, session: nat, pieceId: PieceId, manifestId: Word)

  /** What flush is waiting for: nothing, the response to a post, or IndexedDB after an ok. */
  datatype Flight = Idle | Posting(batch: seq<Item>, post: nat) | Deleting(batch: seq<Item>)

  /** Page memory. `unsaved` holds the enqueues still waiting for the database to open. */
  datatype Page = Page(queue: seq<Item>, seen: set<PieceId>, unsaved: set<Item>, flight: Flight, lastAt: int)

  const EMPTY_PAGE := Page([], {}, {}, Idle, 0)
  const BATCH := 50
  const DEBOUNCE_MS := 350

  // ---------------------------------------------------------------- client code

  /** handlePayload up to the first await of enqueue: debounce, flag, or accept and queue. */
  function HandlePayload(p: Page, s: Session, pieceId: PieceId, nonce: Nonce, now: int): Page {
    if now - p.lastAt < DEBOUNCE_MS then p
    else if pieceId in p.seen || pieceId !in s.pieces then p.(lastAt := now)
    else
      var item := Item(nonce, s.token, pieceId, s.manifestId);
      p.(lastAt := now, seen := p.seen + {pieceId}, queue := p.queue + [item], unsaved := p.unsaved + {item})
  }

  function Batch(queue: seq<Item>): seq<Item> {
    if |queue| <= BATCH then queue else queue[..BATCH]
  }

  predicate WillPost(p: Page, online: bool) {
    p.flight.Idle? && online && |p.queue| > 0
  }

  /** flush up to its fetch. `post` names the request it sends. */
  function StartFlush(p: Page, online: bool, post: nat): Page {
    if WillPost(p, online) then p.(flight := Posting(Batch(p.queue), post)) else p
  }

  /** After the deletes are issued: drop as many items as were sent, and stop flushing. */
  function FinishFlush(p: Page): Page
    requires p.flight.Deleting? && |p.flight.batch| <= |p.queue|
  {
    p.(queue := p.queue[|p.flight.batch|..], flight := Idle)
  }

  function NoncesOf(items: seq<Item>): set<Nonce> {
    set i | i in items :: i.nonce
  }

  /** What the server writes for a posted item. */
  function EventOf(i: Item, at: int): ScanEvent {
    ScanEvent(i.pieceId, Some(i.manifestId), Unloading, at, Some(i.nonce))
  }

  function EventsOf(items: seq<Item>, at: int): (es: seq<ScanEvent>)
    ensures |es| == |items|
    ensures forall k :: 0 <= k < |items| ==> es[k] == EventOf(items[k], at)
  {
    seq(|items|, k requires 0 <= k < |items| => EventOf(items[k], at))
  }

  // ---------------------------------------------------------------- the whole system

  /** `issued` remembers which item each nonce was drawn for, `saved` every item that ever
      reached IndexedDB; neither influences a step. */
  datatype System = System(
    page: Page, idb: map<Nonce, Item>,
    posts: seq<seq<Item>>, delivered: set<nat>, log: seq<ScanEvent>,
    issued: map<Nonce, Item>, saved: set<Item>)

  datatype Event =
    | Scan(pieceId: PieceId, nonce: Nonce, now: int)
    | Save(item: Item, online: bool)
    | Flush(online: bool)
    | Deliver(post: nat, at: int)
    | Acknowledge
    | Finish
    | FlushFails
    | Reload(items: seq<Item>)
    | OtherScan(event: ScanEvent)

  /** A listing of the stored items of this session, in whatever order. */
  ghost predicate Lists(items: seq<Item>, idb: map<Nonce, Item>, token: nat) {
    && (forall i :: i in items <==> i.nonce in idb && idb[i.nonce] == i && i.session == token)
    && (forall j, k :: 0 <= j < k < |items| ==> items[j] != items[k])
  }

  predicate Unused(x: System, nonce: Nonce) {
    nonce !in x.issued && forall i :: 0 <= i < |x.log| ==> x.log[i].nonce != Some(nonce)
  }

  ghost predicate Possible(x: System, s: Session, e: Event) {
    match e
    case Scan(_, nonce, _) => Unused(x, nonce)
    case Save(item, _) => item in x.page.unsaved
    case Flush(_) => true
    case Deliver(post, _) => post < |x.posts|
    case Acknowledge => x.page.flight.Posting? && x.page.flight.post in x.delivered
    case Finish => x.page.flight.Deleting? && |x.page.flight.batch| <= |x.page.queue|
    case FlushFails => !x.page.flight.Idle?
    case Reload(items) => Lists(items, x.idb, s.token)
    case OtherScan(event) => event.nonce.Some? ==> event.nonce.value !in x.issued
  }

  /** flush's first stretch on the system: the page changes and the request is on its way. */
  function Launch(x: System, online: bool): System {
    if WillPost(x.page, online)
    then x.(page := StartFlush(x.page, online, |x.posts|), posts := x.posts + [Batch(x.page.queue)])
    else x
  }

  ghost function Step(x: System, s: Session, e: Event): System
    requires Possible(x, s, e)
  {
    match e
    case Scan(pieceId, nonce, now) =>
      x.(page := HandlePayload(x.page, s, pieceId, nonce, now),
         issued := x.issued[nonce := Item(nonce, s.token, pieceId, s.manifestId)])
    case Save(item, online) =>
      Launch(x.(page := x.page.(unsaved := x.page.unsaved - {item}),
                idb := x.idb[item.nonce := item], saved := x.saved + {item}), online)
    case Flush(online) => Launch(x, online)
    case Deliver(post, at) =>
      x.(log := AppendAll(x.log, EventsOf(x.posts[post], at)), delivered := x.delivered + {post})
    case Acknowledge => x.(page := x.page.(flight := Deleting(x.page.flight.batch)))
    case Finish => x.(page := FinishFlush(x.page), idb := x.idb - NoncesOf(x.page.flight.batch))
    case FlushFails => x.(page := x.page.(flight := Idle))
    case Reload(items) =>
      x.(page := EMPTY_PAGE.(queue := items, seen := set i | i in items :: i.pieceId))
    case OtherScan(event) => x.(log := Insert(x.log, event))
  }

  ghost predicate PossibleRun(x: System, s: Session, es: seq<Event>)
    decreases |es|
  {
    |es| == 0 || (Possible(x, s, es[0]) && PossibleRun(Step(x, s, es[0]), s, es[1..]))
  }

  ghost function Run(x: System, s: Session, es: seq<Event>): System
    requires PossibleRun(x, s, es)
    decreases |es|
  {
    if |es| == 0 then x else Run(Step(x, s, es[0]), s, es[1..])
  }

  /** One more event in front of a run. */
  lemma RunCons(x: System, s: Session, e: Event, y: System, es: seq<Event>)
    requires Possible(x, s, e) && Step(x, s, e) == y && PossibleRun(y, s, es)
    ensures PossibleRun(x, s, [e] + es) && Run(x, s, [e] + es) == Run(y, s, es)
  {
    assert ([e] + es)[1..] == es;
  }

  // ---------------------------------------------------------------- invariants

  /** The server has this item: an event of the same piece and nonce. */
  ghost predicate OnServer(log: seq<ScanEvent>, i: Item) {
    Held(log, EventOf(i, 0))
  }

  ghost predicate Known(issued: map<Nonce, Item>, i: Item) {
    i.nonce in issued && issued[i.nonce] == i
  }

  /** Every item in the system is the one its nonce was drawn for. */
  ghost predicate NoncesIdentify(x: System) {
    && (forall i :: i in x.page.queue ==> Known(x.issued, i))
    && (forall i :: i in x.page.unsaved ==> Known(x.issued, i))
    && (forall n :: n in x.idb ==> x.idb[n].nonce == n && Known(x.issued, x.idb[n]))
    && (forall k, i :: 0 <= k < |x.posts| && i in x.posts[k] ==> Known(x.issued, i))
    && (forall i :: i in x.saved ==> Known(x.issued, i))
  }

  /** An event under one of our nonces is the event of our item. */
  ghost predicate LogIsOurs(x: System) {
    forall k :: 0 <= k < |x.log| && x.log[k].nonce.Some? && x.log[k].nonce.value in x.issued ==>
      x.log[k] == EventOf(x.issued[x.log[k].nonce.value], x.log[k].scannedAt)
  }

  ghost predicate DeliveredHeld(x: System) {
    && (forall k :: k in x.delivered ==> k < |x.posts|)
    && (forall k, i :: k in x.delivered && k < |x.posts| && i in x.posts[k] ==> OnServer(x.log, i))
  }

  /** The batch in flight is still the front of the queue; once acknowledged it is held. */
  ghost predicate FlightIsFront(x: System) {
    match x.page.flight
    case Idle => true
    case Posting(batch, post) => batch <= x.page.queue && post < |x.posts| && x.posts[post] == batch
    case Deleting(batch) => batch <= x.page.queue && forall i :: i in batch ==> OnServer(x.log, i)
  }

  /** Nothing accepted is forgotten: a counted piece is queued or on the server, and an item
      that reached IndexedDB is still there or on the server. */
  ghost predicate NothingLost(x: System, s: Session) {
    && (forall p :: p in x.page.seen ==> Backed(x, s, p))
    && (forall i :: i in x.saved ==> (i.nonce in x.idb && x.idb[i.nonce] == i) || OnServer(x.log, i))
  }

  ghost predicate Backed(x: System, s: Session, p: PieceId) {
    exists i: Item :: i.pieceId == p && i.manifestId == s.manifestId && Known(x.issued, i)
                && (i in x.page.queue || OnServer(x.log, i))
  }

  /** An item the page accepted for this session: its manifest, one of its pieces. */
  predicate Accepted(i: Item, s: Session) {
    i.session == s.token && i.manifestId == s.manifestId && i.pieceId in s.pieces
  }

  /** Only pieces of the manifest are ever counted or queued for it, reloads included. */
  ghost predicate OnManifest(x: System, s: Session) {
    && (forall p :: p in x.page.seen ==> p in s.pieces)
    && (forall i :: i in x.page.queue ==> Accepted(i, s))
    && (forall i :: i in x.page.unsaved ==> Accepted(i, s))
    && (forall n :: n in x.idb && x.idb[n].session == s.token ==> Accepted(x.idb[n], s))
  }

  ghost predicate Sound(x: System, s: Session) {
    && Deduplicated(x.log) && NoncesIdentify(x) && LogIsOurs(x) && DeliveredHeld(x) && FlightIsFront(x)
    && NothingLost(x, s) && OnManifest(x, s)
    && (forall n :: n in x.issued && x.issued[n].session == s.token ==> x.issued[n].manifestId == s.manifestId)
  }

  function Start(log: seq<ScanEvent>): System {
    System(EMPTY_PAGE, map[], [], {}, log, map[], {})
  }
}
