/**
 * The whole payout path at once: manifests anchored and stored, pieces scanned, deliveries
 * confirmed and payouts requested by any number of interleaved requests, while anyone calls
 * the contract and the gateway settles collections. Each stretch between two awaits is a step.
 */
module PayoutSafety {
  import opened Wrappers
  import opened ByteStrings
  import opened Seqs
  import opened Custody
  import opened ScanLog
  import opened Reconciliation
  import opened ReleaseGate
  import opened Payments

  /** A request suspended between two awaits, with what it has read so far. */
  datatype Proc =
    | Anchored(id: Word, doc: Doc)
    | Signing(id: Word, rec: ReconcileResult)
    | Judging(id: Word, rec: ReconcileResult)
    | Synced(id: Word, rec: ReconcileResult, status: Option<Status>)
    | Approved(id: Word)
    | Releasing(body: Body)
    | Done

  datatype System = System(
    chain: State, docs: map<Word, Doc>, log: seq<ScanEvent>,
    procs: map<nat, Proc>, sent: seq<Body>, rows: seq<Payment>)

  /** The deployment's fixed parts: contract cryptography and the internal webhook secret. */
  datatype Env = Env(crypto: Crypto, internalMac: Body -> nat)

  datatype Event =
    | OnChain(call: Call)
    | Scan(e: ScanEvent)
    | Anchor(p: nat, id: Word, doc: Doc, call: Call)
    | StoreDoc(p: nat)
    | BeginConfirm(p: nat, id: Word)
    | Confirm(p: nat, sender: Address, now: nat, signer: Bytes32 -> Bytes)
    | BeginPayout(p: nat, id: Word)
    | Sync(p: nat)
    | Judge(p: nat)
    | Send(p: nat)
    | Webhook(p: nat, signature: nat, body: Body)
    | PayOut(p: nat)
    | CreateCollection(bookings: set<BookingId>, bookingId: BookingId, amountInr: nat)
    | Gateway(notice: GatewayBody)

  /** The rows put and indexPieces insert: one manifest per id and per booking, and no piece
      in two manifests, or the transaction fails as a whole. */
  predicate Insertable(docs: map<Word, Doc>, id: Word, doc: Doc) {
    && id !in docs
    && forall k :: k in docs ==> docs[k].bookingId != doc.bookingId && Members(docs[k].pieces) !! Members(doc.pieces)
  }

  function ProcOf(x: System, p: nat): Proc {
    if p in x.procs then x.procs[p] else Done
  }

  function Goes(x: System, p: nat, next: Proc): System {
    x.(procs := x.procs[p := next])
  }

  /** A step whose request is not at that point changes nothing. */
  function Step(v: Env, x: System, e: Event): System {
    match e
    case OnChain(call) => x.(chain := Custody.Step(v.crypto, x.chain, call))
    case Scan(e) => x.(log := Insert(x.log, e))
    case Anchor(p, id, doc, call) =>
      if ProcOf(x, p) == Done && call.op.CreateManifest? && call.op.id == id && call.op.pieceCount == |doc.pieces|
         && Apply(v.crypto, x.chain, call).Ok?
      then Goes(x.(chain := Custody.Step(v.crypto, x.chain, call)), p, Anchored(id, doc))
      else x
    case StoreDoc(p) =>
      var proc := ProcOf(x, p);
      if !proc.Anchored? then x
      else Goes(if Insertable(x.docs, proc.id, proc.doc) then x.(docs := x.docs[proc.id := proc.doc]) else x, p, Done)
    case BeginConfirm(p, id) =>
      if ProcOf(x, p) == Done && id in x.docs then Goes(x, p, Signing(id, Reconciled(x.docs[id], x.log, id))) else x
    case Confirm(p, sender, now, signer) =>
      var proc := ProcOf(x, p);
      if !proc.Signing? || proc.rec.scanned >= TWO_32 then x
      else Goes(x.(chain := Custody.Step(v.crypto, x.chain,
                                         ConfirmCall(v.crypto, proc.id, proc.rec.scanned, sender, now, signer))), p, Done)
    case BeginPayout(p, id) =>
      if ProcOf(x, p) == Done && id in x.docs then Goes(x, p, Judging(id, Reconciled(x.docs[id], x.log, id))) else x
    case Sync(p) =>
      var proc := ProcOf(x, p);
      if proc.Judging? then Goes(x, p, Synced(proc.id, proc.rec, StatusOf(x.chain.manifests, proc.id))) else x
    case Judge(p) =>
      var proc := ProcOf(x, p);
      if !proc.Synced? then x
      else Goes(x, p, if Decide(proc.rec, proc.status, Releasable(x.chain, proc.id)).releasable
                      then Approved(proc.id) else Done)
    case Send(p) =>
      var proc := ProcOf(x, p);
      if !proc.Approved? then x
      else if proc.id !in x.docs then Goes(x, p, Done)
      else Goes(x.(sent := x.sent + [BodyOf(x, proc.id)]), p, Done)
    case Webhook(p, signature, body) =>
      if ProcOf(x, p) == Done && signature == v.internalMac(body) && Releasable(x.chain, body.manifestId)
      then Goes(x, p, Releasing(body)) else x
    case PayOut(p) =>
      var proc := ProcOf(x, p);
      if proc.Releasing? then Goes(x.(rows := Release(x.rows, proc.body.bookingId)), p, Done) else x
    case CreateCollection(bookings, b, amountInr) =>
      var r := Collect(x.rows, bookings, b, amountInr);
      if r.Ok? then x.(rows := r.value) else x
    case Gateway(body) => x.(rows := Settle(x.rows, body))
  }

  function BodyOf(x: System, id: Word): Body
    requires id in x.docs
  {
    Body(id, x.docs[id].bookingId, x.docs[id].transporterId)
  }

  function Run(v: Env, x: System, es: seq<Event>): System {
    if |es| == 0 then x else Step(v, Run(v, x, es[..|es| - 1]), es[|es| - 1])
  }

  /** What the environment promises: manifests are schema-valid before they are anchored, and
      whoever signs a webhook with the internal secret is the gate. */
  ghost predicate Honest(v: Env, x: System, e: Event) {
    match e
    case Anchor(_, _, doc, _) => ValidDoc(doc)
    case Webhook(_, signature, body) => signature == v.internalMac(body) ==> body in x.sent
    case _ => true
  }

  ghost predicate HonestRun(v: Env, x: System, es: seq<Event>)
    decreases |es|
  {
    |es| == 0 || (HonestRun(v, x, es[..|es| - 1]) && Honest(v, Run(v, x, es[..|es| - 1]), es[|es| - 1]))
  }

  function Genesis(deployer: Address): System {
    System(Custody.Genesis(deployer), map[], [], map[], [], [])
  }

  // ---------------------------------------------------------------- invariants

  /** A document and the manifest the chain holds for it. */
  ghost predicate DocMatches(x: System, id: Word, doc: Doc) {
    ValidDoc(doc) && id in x.chain.manifests && x.chain.manifests[id].pieceCount == |doc.pieces|
  }

  /** At some moment so far, the pieces scanned at unloading were exactly the manifest's. */
  ghost predicate OnceComplete(log: seq<ScanEvent>, id: Word, doc: Doc) {
    exists n :: 0 <= n <= |log| && Scanned(log[..n], id, Unloading) == Members(doc.pieces)
  }

  /** The chain settled this manifest in full, with all three signatures. */
  predicate DeliveredInFull(chain: State, id: Word) {
    && id in chain.manifests
    && var m := chain.manifests[id];
    && m.loaderSigned && m.driverSigned && m.receiverSigned && m.deliveredCount == m.pieceCount
    && (m.status == Delivered || m.status == Status.Disputed)
  }

  /** Everything a payout for this manifest rests on. */
  ghost predicate Payable(x: System, id: Word) {
    && id in x.docs && DocMatches(x, id, x.docs[id])
    && DeliveredInFull(x.chain, id)
    && OnceComplete(x.log, id, x.docs[id])
  }

  ghost predicate ReconciledOnce(x: System, id: Word, rec: ReconcileResult) {
    id in x.docs && exists n :: 0 <= n <= |x.log| && rec == Reconciled(x.docs[id], x.log[..n], id)
  }

  ghost predicate ProcValid(x: System, proc: Proc) {
    match proc
    case Anchored(id, doc) => DocMatches(x, id, doc)
    case Signing(id, rec) => ReconciledOnce(x, id, rec)
    case Judging(id, rec) => ReconciledOnce(x, id, rec)
    case Synced(id, rec, _) => ReconciledOnce(x, id, rec)
    case Approved(id) => Payable(x, id)
    case Releasing(body) => body in x.sent
    case Done => true
  }

  /** The documents: each matches its manifest on chain, one per booking, no shared piece. */
  ghost predicate DocsValid(x: System) {
    && (forall id :: id in x.docs ==> DocMatches(x, id, x.docs[id]))
    && (forall j, k :: j in x.docs && k in x.docs && j != k ==>
          x.docs[j].bookingId != x.docs[k].bookingId && Members(x.docs[j].pieces) !! Members(x.docs[k].pieces))
  }

  ghost predicate SentValid(x: System) {
    forall b :: b in x.sent ==> Payable(x, b.manifestId) && b == BodyOf(x, b.manifestId)
  }

  /** Money that left for a booking left for a payable manifest of that booking. */
  ghost predicate ReleasedValid(x: System) {
    forall i :: 0 <= i < |x.rows| && x.rows[i].payout == Released ==> PaidFor(x, x.rows[i].bookingId)
  }

  ghost predicate PaidFor(x: System, b: BookingId) {
    exists id :: Payable(x, id) && x.docs[id].bookingId == b
  }

  ghost predicate Safe(x: System) {
    && AllConsistent(x.chain) && DocsValid(x)
    && (forall p :: p in x.procs ==> ProcValid(x, x.procs[p]))
    && SentValid(x) && RowsValid(x.rows) && ReleasedValid(x)
  }

  // ---------------------------------------------------------------- what only grows

  /** The chain follows its rules, documents are never changed, log and requests only grow. */
  ghost predicate Grows(x: System, y: System) {
    && Evolved(x.chain, y.chain) && x.log <= y.log && x.sent <= y.sent
    && forall id :: id in x.docs ==> id in y.docs && y.docs[id] == x.docs[id]
  }

  lemma ReconciledOnceGrows(x: System, y: System, id: Word, rec: ReconcileResult)
    requires Grows(x, y) && ReconciledOnce(x, id, rec)
    ensures ReconciledOnce(y, id, rec)
  {
    var n :| 0 <= n <= |x.log| && rec == Reconciled(x.docs[id], x.log[..n], id);
    assert y.log[..n] == x.log[..n];
    assert rec == Reconciled(y.docs[id], y.log[..n], id);
  }

  lemma PayableGrows(x: System, y: System, id: Word)
    requires Grows(x, y) && Payable(x, id)
    ensures Payable(y, id) && BodyOf(y, id) == BodyOf(x, id)
  {
    var n :| 0 <= n <= |x.log| && Scanned(x.log[..n], id, Unloading) == Members(x.docs[id].pieces);
    assert y.log[..n] == x.log[..n];
    assert Follows(x.chain.manifests[id], y.chain.manifests[id]);
  }

  lemma ProcValidGrows(x: System, y: System, proc: Proc)
    requires Grows(x, y) && ProcValid(x, proc)
    ensures ProcValid(y, proc)
  {
    match proc
    case Anchored(id, doc) => assert Follows(x.chain.manifests[id], y.chain.manifests[id]);
    case Signing(id, rec) => ReconciledOnceGrows(x, y, id, rec);
    case Judging(id, rec) => ReconciledOnceGrows(x, y, id, rec);
    case Synced(id, rec, _) => ReconciledOnceGrows(x, y, id, rec);
    case Approved(id) => PayableGrows(x, y, id);
    case Releasing(body) =>
    case Done =>
  }

  /** Payout facts survive growth; what is left of Safe is whatever the step itself wrote. */
  lemma GrowthKeeps(x: System, y: System)
    requires Safe(x) && Grows(x, y)
    ensures forall p :: p in x.procs ==> ProcValid(y, x.procs[p])
    ensures forall b :: b in x.sent ==> Payable(y, b.manifestId) && b == BodyOf(y, b.manifestId)
    ensures forall b :: PaidFor(x, b) ==> PaidFor(y, b)
  {
    forall p | p in x.procs ensures ProcValid(y, x.procs[p]) {
      ProcValidGrows(x, y, x.procs[p]);
    }
    forall b | b in x.sent ensures Payable(y, b.manifestId) && b == BodyOf(y, b.manifestId) {
      PayableGrows(x, y, b.manifestId);
    }
    forall b | PaidFor(x, b) ensures PaidFor(y, b) {
      var id :| Payable(x, id) && x.docs[id].bookingId == b;
      PayableGrows(x, y, id);
    }
  }

  // ---------------------------------------------------------------- each step

  /** A step on the chain, on behalf of a request or of nobody. */
  lemma ChainStepKeeps(v: Env, x: System, call: Call)
    requires Safe(x)
    ensures var y := x.(chain := Custody.Step(v.crypto, x.chain, call));
            Safe(y) && Grows(x, y)
  {
    var y := x.(chain := Custody.Step(v.crypto, x.chain, call));
    StepKeepsConsistent(v.crypto, x.chain, call);
    GrowthKeeps(x, y);
    forall id | id in y.docs ensures DocMatches(y, id, y.docs[id]) {
      assert Follows(x.chain.manifests[id], y.chain.manifests[id]);
    }
  }

  lemma ScanKeeps(x: System, e: ScanEvent)
    requires Safe(x)
    ensures var y := x.(log := Insert(x.log, e));
            Safe(y) && Grows(x, y)
  {
    var y := x.(log := Insert(x.log, e));
    GrowthKeeps(x, y);
  }

  /** A request moving on, with nothing but its own state written. */
  lemma GoesKeeps(x: System, p: nat, next: Proc)
    requires Safe(x) && ProcValid(x, next)
    ensures Safe(Goes(x, p, next)) && Grows(x, Goes(x, p, next))
  {
    var y := Goes(x, p, next);
    GrowthKeeps(x, y);
    ProcValidGrows(x, y, next);
  }

  lemma StoreKeeps(x: System, id: Word, doc: Doc)
    requires Safe(x) && DocMatches(x, id, doc) && Insertable(x.docs, id, doc)
    ensures var y := x.(docs := x.docs[id := doc]);
            Safe(y) && Grows(x, y)
  {
    GrowthKeeps(x, x.(docs := x.docs[id := doc]));
  }

  lemma ReconcileIsNow(x: System, id: Word)
    requires id in x.docs
    ensures ReconciledOnce(x, id, Reconciled(x.docs[id], x.log, id))
  {
    TakeAll(x.log);
  }

  /** Releasable now, after a reconciliation that once matched: payable. */
  lemma JudgedIsPayable(x: System, id: Word, rec: ReconcileResult)
    requires Safe(x) && ReconciledOnce(x, id, rec) && rec.complete && Releasable(x.chain, id)
    ensures Payable(x, id)
  {
    var n :| 0 <= n <= |x.log| && rec == Reconciled(x.docs[id], x.log[..n], id);
    CompleteMeansEqual(x.docs[id], x.log[..n], id);
    assert Consistent(x.chain.manifests[id]);
  }

  lemma SendKeeps(x: System, id: Word)
    requires Safe(x) && Payable(x, id)
    ensures var y := x.(sent := x.sent + [BodyOf(x, id)]);
            Safe(y) && Grows(x, y)
  {
    var y := x.(sent := x.sent + [BodyOf(x, id)]);
    GrowthKeeps(x, y);
    PayableGrows(x, y, id);
  }

  lemma RowsKeep(x: System, rows: seq<Payment>)
    requires Safe(x) && RowsValid(rows)
    requires forall i :: 0 <= i < |rows| && rows[i].payout == Released ==> PaidFor(x, rows[i].bookingId)
    ensures Safe(x.(rows := rows)) && Grows(x, x.(rows := rows))
  {
    var y := x.(rows := rows);
    GrowthKeeps(x, y);
  }

  lemma PayOutKeeps(x: System, body: Body)
    requires Safe(x) && body in x.sent
    ensures var y := x.(rows := Release(x.rows, body.bookingId));
            Safe(y) && Grows(x, y)
  {
    ReleaseKeeps(x.rows, body.bookingId);
    assert Payable(x, body.manifestId) && x.docs[body.manifestId].bookingId == body.bookingId;
    assert PaidFor(x, body.bookingId);
    RowsKeep(x, Release(x.rows, body.bookingId));
  }

  lemma GrowsTransitive(x: System, y: System, z: System)
    requires Grows(x, y) && Grows(y, z)
    ensures Grows(x, z)
  {
    forall id | id in x.chain.manifests
      ensures id in z.chain.manifests && Follows(x.chain.manifests[id], z.chain.manifests[id])
    {
      FollowsTransitive(x.chain.manifests[id], y.chain.manifests[id], z.chain.manifests[id]);
    }
  }

  lemma NothingGrows(x: System)
    ensures Grows(x, x)
  {
  }

  lemma AnchorKeeps(v: Env, x: System, p: nat, id: Word, doc: Doc, call: Call)
    requires Safe(x) && ValidDoc(doc)
    ensures Safe(Step(v, x, Anchor(p, id, doc, call))) && Grows(x, Step(v, x, Anchor(p, id, doc, call)))
  {
    NothingGrows(x);
    if Step(v, x, Anchor(p, id, doc, call)) != x {
      var y := x.(chain := Custody.Step(v.crypto, x.chain, call));
      ChainStepKeeps(v, x, call);
      assert DocMatches(y, id, doc);
      GoesKeeps(y, p, Anchored(id, doc));
      GrowsTransitive(x, y, Goes(y, p, Anchored(id, doc)));
    }
  }

  lemma StoreDocKeeps(v: Env, x: System, p: nat)
    requires Safe(x)
    ensures Safe(Step(v, x, StoreDoc(p))) && Grows(x, Step(v, x, StoreDoc(p)))
  {
    NothingGrows(x);
    var proc := ProcOf(x, p);
    if proc.Anchored? {
      var y := if Insertable(x.docs, proc.id, proc.doc) then x.(docs := x.docs[proc.id := proc.doc]) else x;
      if Insertable(x.docs, proc.id, proc.doc) {
        StoreKeeps(x, proc.id, proc.doc);
      }
      GoesKeeps(y, p, Done);
      GrowsTransitive(x, y, Goes(y, p, Done));
    }
  }

  lemma ConfirmKeeps(v: Env, x: System, p: nat, sender: Address, now: nat, signer: Bytes32 -> Bytes)
    requires Safe(x)
    ensures var e := Event.Confirm(p, sender, now, signer);
            Safe(Step(v, x, e)) && Grows(x, Step(v, x, e))
  {
    NothingGrows(x);
    var proc := ProcOf(x, p);
    if proc.Signing? && proc.rec.scanned < TWO_32 {
      var call := ConfirmCall(v.crypto, proc.id, proc.rec.scanned, sender, now, signer);
      var y := x.(chain := Custody.Step(v.crypto, x.chain, call));
      ChainStepKeeps(v, x, call);
      GoesKeeps(y, p, Done);
      GrowsTransitive(x, y, Goes(y, p, Done));
    }
  }

  lemma JudgeKeeps(v: Env, x: System, p: nat)
    requires Safe(x)
    ensures Safe(Step(v, x, Judge(p))) && Grows(x, Step(v, x, Judge(p)))
  {
    NothingGrows(x);
    var proc := ProcOf(x, p);
    if proc.Synced? {
      if Decide(proc.rec, proc.status, Releasable(x.chain, proc.id)).releasable {
        JudgedIsPayable(x, proc.id, proc.rec);
        GoesKeeps(x, p, Approved(proc.id));
      } else {
        GoesKeeps(x, p, Done);
      }
    }
  }

  lemma SendStepKeeps(v: Env, x: System, p: nat)
    requires Safe(x)
    ensures Safe(Step(v, x, Send(p))) && Grows(x, Step(v, x, Send(p)))
  {
    NothingGrows(x);
    var proc := ProcOf(x, p);
    if proc.Approved? {
      var y := x.(sent := x.sent + [BodyOf(x, proc.id)]);
      SendKeeps(x, proc.id);
      GoesKeeps(y, p, Done);
      GrowsTransitive(x, y, Goes(y, p, Done));
    }
  }

  lemma PayOutStepKeeps(v: Env, x: System, p: nat)
    requires Safe(x)
    ensures Safe(Step(v, x, PayOut(p))) && Grows(x, Step(v, x, PayOut(p)))
  {
    NothingGrows(x);
    var proc := ProcOf(x, p);
    if proc.Releasing? {
      var y := x.(rows := Release(x.rows, proc.body.bookingId));
      PayOutKeeps(x, proc.body);
      GoesKeeps(y, p, Done);
      GrowsTransitive(x, y, Goes(y, p, Done));
    }
  }

  lemma BeginConfirmKeeps(v: Env, x: System, p: nat, id: Word)
    requires Safe(x)
    ensures Safe(Step(v, x, BeginConfirm(p, id))) && Grows(x, Step(v, x, BeginConfirm(p, id)))
  {
    NothingGrows(x);
    if id in x.docs {
      ReconcileIsNow(x, id);
      GoesKeeps(x, p, Signing(id, Reconciled(x.docs[id], x.log, id)));
    }
  }

  lemma BeginPayoutKeeps(v: Env, x: System, p: nat, id: Word)
    requires Safe(x)
    ensures Safe(Step(v, x, BeginPayout(p, id))) && Grows(x, Step(v, x, BeginPayout(p, id)))
  {
    NothingGrows(x);
    if id in x.docs {
      ReconcileIsNow(x, id);
      GoesKeeps(x, p, Judging(id, Reconciled(x.docs[id], x.log, id)));
    }
  }

  lemma SyncKeeps(v: Env, x: System, p: nat)
    requires Safe(x)
    ensures Safe(Step(v, x, Sync(p))) && Grows(x, Step(v, x, Sync(p)))
  {
    NothingGrows(x);
    var proc := ProcOf(x, p);
    if proc.Judging? {
      GoesKeeps(x, p, Synced(proc.id, proc.rec, StatusOf(x.chain.manifests, proc.id)));
    }
  }

  lemma WebhookKeeps(v: Env, x: System, p: nat, signature: nat, body: Body)
    requires Safe(x) && Honest(v, x, Webhook(p, signature, body))
    ensures var y := Step(v, x, Webhook(p, signature, body));
            Safe(y) && Grows(x, y)
  {
    NothingGrows(x);
    if signature == v.internalMac(body) {
      GoesKeeps(x, p, Releasing(body));
    }
  }

  lemma CollectionKeeps(v: Env, x: System, bookings: set<BookingId>, b: BookingId, amountInr: nat)
    requires Safe(x)
    ensures var y := Step(v, x, CreateCollection(bookings, b, amountInr));
            Safe(y) && Grows(x, y)
  {
    NothingGrows(x);
    if Collect(x.rows, bookings, b, amountInr).Ok? {
      CollectKeeps(x.rows, bookings, b, amountInr);
      RowsKeep(x, Collect(x.rows, bookings, b, amountInr).value);
    }
  }

  lemma StepKeepsSafe(v: Env, x: System, e: Event)
    requires Safe(x) && Honest(v, x, e)
    ensures Safe(Step(v, x, e)) && Grows(x, Step(v, x, e))
  {
    NothingGrows(x);
    match e
    case OnChain(call) => ChainStepKeeps(v, x, call);
    case Scan(e) => ScanKeeps(x, e);
    case Anchor(p, id, doc, call) => AnchorKeeps(v, x, p, id, doc, call);
    case StoreDoc(p) => StoreDocKeeps(v, x, p);
    case BeginConfirm(p, id) => BeginConfirmKeeps(v, x, p, id);
    case Confirm(p, sender, now, signer) => ConfirmKeeps(v, x, p, sender, now, signer);
    case BeginPayout(p, id) => BeginPayoutKeeps(v, x, p, id);
    case Sync(p) => SyncKeeps(v, x, p);
    case Judge(p) => JudgeKeeps(v, x, p);
    case Send(p) => SendStepKeeps(v, x, p);
    case Webhook(p, signature, body) => WebhookKeeps(v, x, p, signature, body);
    case PayOut(p) => PayOutStepKeeps(v, x, p);
    case CreateCollection(bookings, b, amountInr) => CollectionKeeps(v, x, bookings, b, amountInr);
    case Gateway(notice) =>
      SettleKeeps(x.rows, notice);
      RowsKeep(x, Settle(x.rows, notice));
  }

  // ---------------------------------------------------------------- main results

  /** Whole-run payout safety: in every interleaving, every webhook sent and every payment
      released is for a manifest that the loader, the driver and the receiver signed, whose
      signed count is its piece count, and whose unloading scans were exactly its pieces. */
  lemma {:induction false} RunKeepsSafe(v: Env, x: System, es: seq<Event>)
    requires Safe(x) && HonestRun(v, x, es)
    ensures Safe(Run(v, x, es)) && Grows(x, Run(v, x, es))
    decreases |es|
  {
    if |es| == 0 {
      NothingGrows(x);
    } else {
      var mid := Run(v, x, es[..|es| - 1]);
      RunKeepsSafe(v, x, es[..|es| - 1]);
      StepKeepsSafe(v, mid, es[|es| - 1]);
      GrowsTransitive(x, mid, Run(v, x, es));
    }
  }

  lemma GenesisIsSafe(deployer: Address)
    ensures Safe(Genesis(deployer))
  {
  }

  /** The same from the beginning, spelled out. */
  lemma EveryPayoutIsEarned(v: Env, deployer: Address, es: seq<Event>)
    requires HonestRun(v, Genesis(deployer), es)
    ensures var y := Run(v, Genesis(deployer), es);
            && (forall b :: b in y.sent ==> Payable(y, b.manifestId) && b == BodyOf(y, b.manifestId))
            && (forall i :: 0 <= i < |y.rows| && y.rows[i].payout == Released ==>
                  y.rows[i].status == Paid && PaidFor(y, y.rows[i].bookingId))
  {
    GenesisIsSafe(deployer);
    RunKeepsSafe(v, Genesis(deployer), es);
  }

  /** The contract call a request waiting for its signature will make. */
  function PendingCall(v: Env, proc: Proc, sender: Address, now: nat, signer: Bytes32 -> Bytes): Call
    requires proc.Signing? && proc.rec.scanned < TWO_32
  {
    ConfirmCall(v.crypto, proc.id, proc.rec.scanned, sender, now, signer)
  }

  /** The contract call a step makes, if it makes one. */
  function CallOf(v: Env, x: System, e: Event): Option<Call> {
    match e
    case OnChain(call) => Some(call)
    case Anchor(p, id, doc, call) => if Step(v, x, e) != x then Some(call) else None
    case Confirm(p, sender, now, signer) =>
      if ProcOf(x, p).Signing? && ProcOf(x, p).rec.scanned < TWO_32
      then Some(PendingCall(v, ProcOf(x, p), sender, now, signer)) else None
    case _ => None
  }

  lemma ChainMovesByCalls(v: Env, x: System, e: Event)
    ensures Step(v, x, e).chain
            == if CallOf(v, x, e).Some? then Custody.Step(v.crypto, x.chain, CallOf(v, x, e).value) else x.chain
  {
  }

  /** Whatever happened between the reconciliation and the signature, the count submitted is
      never rejected as too large, and the chain says Delivered exactly when that
      reconciliation had missed nothing; the manifest's pieces were then all scanned. */
  lemma ConfirmedCountIsHonest(v: Env, x: System, p: nat, sender: Address, now: nat, signer: Bytes32 -> Bytes)
    requires Safe(x) && ProcOf(x, p).Signing?
    ensures var proc := ProcOf(x, p);
            && proc.id in x.docs && proc.rec.scanned < TWO_32
            && Step(v, x, Event.Confirm(p, sender, now, signer)).chain
               == Custody.Step(v.crypto, x.chain, PendingCall(v, proc, sender, now, signer))
            && HonestOutcome(v.crypto, x.chain, PendingCall(v, proc, sender, now, signer), proc.rec)
            && (proc.rec.missing == 0 ==> Members(x.docs[proc.id].pieces) <= Scanned(x.log, proc.id, Unloading))
  {
    var proc := ProcOf(x, p);
    assert ProcValid(x, proc);
    ChainMovesByCalls(v, x, Event.Confirm(p, sender, now, signer));
    EarlierCountIsHonest(v, x, proc, sender, now, signer);
  }

  /** The chain never refuses the count, and records in full exactly what missed nothing. */
  predicate HonestOutcome(c: Crypto, chain: State, call: Call, rec: ReconcileResult)
    requires call.op.ConfirmDelivery?
  {
    && Apply(c, chain, call) != Err(CountExceedsManifest)
    && (Apply(c, chain, call).Ok? ==>
          && call.op.id in chain.manifests
          && var m := Custody.Step(c, chain, call).manifests[call.op.id];
          && (m.status == Delivered <==> rec.missing == 0) && (m.status == Short <==> rec.missing > 0))
  }

  lemma EarlierCountIsHonest(v: Env, x: System, proc: Proc, sender: Address, now: nat, signer: Bytes32 -> Bytes)
    requires Safe(x) && proc.Signing? && ReconciledOnce(x, proc.id, proc.rec)
    ensures proc.rec.scanned < TWO_32
    ensures HonestOutcome(v.crypto, x.chain, PendingCall(v, proc, sender, now, signer), proc.rec)
    ensures proc.rec.missing == 0 ==> Members(x.docs[proc.id].pieces) <= Scanned(x.log, proc.id, Unloading)
  {
    var doc := x.docs[proc.id];
    var n :| 0 <= n <= |x.log| && proc.rec == Reconciled(doc, x.log[..n], proc.id);
    HonestCount(v.crypto, x.chain, proc.id, doc.pieces, ByManifest(x.log[..n], proc.id, Unloading), sender, now, signer);
    CompleteMeansEqual(doc, x.log[..n], proc.id);
    ScannedGrows(x.log[..n], x.log, proc.id, Unloading);
  }

  lemma NeverPayable(x: System, y: System, id: Word)
    requires Safe(x) && Safe(y) && Grows(x, y)
    requires id in x.docs && x.chain.manifests[id].status == Short
    ensures !Payable(y, id) && !PaidFor(y, x.docs[id].bookingId)
  {
    assert Follows(x.chain.manifests[id], y.chain.manifests[id]);
    assert Consistent(x.chain.manifests[id]);
    assert forall k :: k in y.docs && k != id ==> y.docs[k].bookingId != y.docs[id].bookingId;
  }

  /** 175 of 200: once the chain records a shortage, no webhook for that manifest is ever
      sent, and no payment of its booking is ever released. */
  lemma ShortIsNeverPaid(v: Env, x: System, es: seq<Event>, id: Word)
    requires Safe(x) && HonestRun(v, x, es)
    requires id in x.docs && x.chain.manifests[id].status == Short
    ensures var y := Run(v, x, es);
            && (forall b :: b in y.sent ==> b.manifestId != id)
            && (forall i :: 0 <= i < |y.rows| && y.rows[i].bookingId == x.docs[id].bookingId ==> y.rows[i].payout == Held)
  {
    var y := Run(v, x, es);
    RunKeepsSafe(v, x, es);
    NeverPayable(x, y, id);
  }

  function Confirmed(v: Env, x: System, p: nat, id: Word, sender: Address, now: nat, signer: Bytes32 -> Bytes): System {
    Step(v, Step(v, x, BeginConfirm(p, id)), Event.Confirm(p, sender, now, signer))
  }

  function Requested(v: Env, x: System, p: nat, id: Word): System {
    Step(v, Step(v, Step(v, Step(v, x, BeginPayout(p, id)), Sync(p)), Judge(p)), Send(p))
  }

  function PaidOut(v: Env, x: System, p: nat, body: Body): System {
    Step(v, Step(v, x, Webhook(p, v.internalMac(body), body)), PayOut(p))
  }

  /** The receiver's key signs the given count. */
  predicate ReceiverSigns(c: Crypto, m: Manifest, id: Word, signer: Bytes32 -> Bytes, count: UInt32) {
    Recover(c, DeliveryDigest(c, id, count), signer(DeliveryDigest(c, id, count))) == Some(m.receiver)
  }

  lemma ConfirmedWhenComplete(v: Env, x: System, p: nat, id: Word, sender: Address, now: nat, signer: Bytes32 -> Bytes)
    requires ProcOf(x, p) == Done && id in x.docs && sender in x.chain.platforms
    requires id in x.chain.manifests && x.chain.manifests[id].status == InCustody
    requires Reconciled(x.docs[id], x.log, id).scanned == x.chain.manifests[id].pieceCount
    requires ReceiverSigns(v.crypto, x.chain.manifests[id], id, signer, x.chain.manifests[id].pieceCount)
    ensures var y := Confirmed(v, x, p, id, sender, now, signer);
            && y == x.(chain := y.chain, procs := y.procs) && ProcOf(y, p) == Done
            && Releasable(y.chain, id)
  {
    var begun := Step(v, x, BeginConfirm(p, id));
    assert ProcOf(begun, p) == Signing(id, Reconciled(x.docs[id], x.log, id));
  }

  lemma RequestedWhenDelivered(v: Env, x: System, p: nat, id: Word)
    requires ProcOf(x, p) == Done && id in x.docs && Releasable(x.chain, id)
    requires Reconciled(x.docs[id], x.log, id).complete
    ensures var y := Requested(v, x, p, id);
            y == x.(sent := x.sent + [BodyOf(x, id)], procs := y.procs) && ProcOf(y, p) == Done
  {
    var begun := Step(v, x, BeginPayout(p, id));
    assert ProcOf(begun, p) == Judging(id, Reconciled(x.docs[id], x.log, id));
  }

  lemma PaidOutWhenReleasable(v: Env, x: System, p: nat, body: Body, row: nat)
    requires ProcOf(x, p) == Done && Releasable(x.chain, body.manifestId)
    requires row < |x.rows| && x.rows[row].bookingId == body.bookingId && x.rows[row].status == Paid
    ensures row < |PaidOut(v, x, p, body).rows| && PaidOut(v, x, p, body).rows[row].payout == Released
  {
  }

  /** And when everything is in order the money does move: complete scans, a valid receiver
      signature and undisturbed requests end with the booking's paid row released. */
  lemma CompleteDeliveryIsPaid(v: Env, x: System, y: System, z: System, p: nat, id: Word,
                               sender: Address, now: nat, signer: Bytes32 -> Bytes, row: nat)
    requires Safe(x) && ProcOf(x, p) == Done && id in x.docs && sender in x.chain.platforms
    requires x.chain.manifests[id].status == InCustody
    requires Scanned(x.log, id, Unloading) == Members(x.docs[id].pieces)
    requires ReceiverSigns(v.crypto, x.chain.manifests[id], id, signer, x.chain.manifests[id].pieceCount)
    requires row < |x.rows| && x.rows[row].bookingId == x.docs[id].bookingId && x.rows[row].status == Paid
    requires y == Confirmed(v, x, p, id, sender, now, signer)
    requires z == Requested(v, y, p, id)
    ensures z.sent == x.sent + [BodyOf(x, id)]
    ensures row < |PaidOut(v, z, p, BodyOf(x, id)).rows| && PaidOut(v, z, p, BodyOf(x, id)).rows[row].payout == Released
  {
    CompleteScansCount(x, id);
    ConfirmedWhenComplete(v, x, p, id, sender, now, signer);
    RequestedWhenDelivered(v, y, p, id);
    PaidOutWhenReleasable(v, z, p, BodyOf(x, id), row);
  }

  lemma CompleteScansCount(x: System, id: Word)
    requires Safe(x) && id in x.docs
    requires Scanned(x.log, id, Unloading) == Members(x.docs[id].pieces)
    ensures Reconciled(x.docs[id], x.log, id).complete
    ensures Reconciled(x.docs[id], x.log, id).scanned == x.chain.manifests[id].pieceCount
  {
    CompleteMeansEqual(x.docs[id], x.log, id);
    ScannedCountBounded(x.docs[id].pieces, ByManifest(x.log, id, Unloading));
  }

  /** Payment rows only move forward, in every run, honest or not. */
  lemma {:induction false} RowsOnlyMoveForward(v: Env, x: System, es: seq<Event>)
    requires RowsValid(x.rows)
    ensures RowsValid(Run(v, x, es).rows) && RowsFollow(x.rows, Run(v, x, es).rows)
  {
    if |es| > 0 {
      var mid := Run(v, x, es[..|es| - 1]);
      RowsOnlyMoveForward(v, x, es[..|es| - 1]);
      RowStep(v, mid, es[|es| - 1]);
      RowsFollowTransitive(x.rows, mid.rows, Run(v, x, es).rows);
    }
  }

  lemma RowStep(v: Env, x: System, e: Event)
    requires RowsValid(x.rows)
    ensures RowsValid(Step(v, x, e).rows) && RowsFollow(x.rows, Step(v, x, e).rows)
  {
    match e
    case PayOut(p) => if ProcOf(x, p).Releasing? { ReleaseKeeps(x.rows, ProcOf(x, p).body.bookingId); }
    case CreateCollection(bookings, b, n) =>
      if Collect(x.rows, bookings, b, n).Ok? { CollectKeeps(x.rows, bookings, b, n); }
    case Gateway(notice) => SettleKeeps(x.rows, notice);
    case _ =>
  }

  // ---------------------------------------------------------------- a leaked secret

  /** The chain has settled, in full, the stored manifest of this booking. */
  ghost predicate SettledFor(x: System, b: BookingId) {
    exists id :: id in x.docs && x.docs[id].bookingId == b && DeliveredInFull(x.chain, id)
  }

  ghost predicate AllSettled(x: System) {
    forall i :: 0 <= i < |x.rows| && x.rows[i].payout == Released ==> SettledFor(x, x.rows[i].bookingId)
  }

  /** The body names a stored manifest and that manifest's own booking. */
  predicate Names(x: System, body: Body) {
    body.manifestId in x.docs && x.docs[body.manifestId].bookingId == body.bookingId
  }

  /** Which webhooks the handler lets through. */
  predicate Accepted(v: Env, x: System, e: Event) {
    e.Webhook? && ProcOf(x, e.p) == Done && e.signature == v.internalMac(e.body) && Releasable(x.chain, e.body.manifestId)
  }

  /** Whoever signs, every accepted body names its manifest's own booking. The handler does not
      check this. */
  ghost predicate TiedRun(v: Env, x: System, es: seq<Event>)
    decreases |es|
  {
    |es| == 0 || (TiedRun(v, x, es[..|es| - 1])
                  && var last := es[|es| - 1];
                  (Accepted(v, Run(v, x, es[..|es| - 1]), last) ==> Names(Run(v, x, es[..|es| - 1]), last.body)))
  }

  /** What holds when anyone can sign webhooks: requests about to pay were cleared by the chain,
      and released rows rest on a settled manifest; on the booking's own, if bodies are tied. */
  ghost predicate ChainBacked(x: System, tied: bool) {
    && AllConsistent(x.chain)
    && (forall p :: p in x.procs && x.procs[p].Releasing? ==> Cleared(x, x.procs[p].body, tied))
    && (forall i :: 0 <= i < |x.rows| && x.rows[i].payout == Released ==> Backed(x, x.rows[i].bookingId, tied))
  }

  ghost predicate Cleared(x: System, body: Body, tied: bool) {
    DeliveredInFull(x.chain, body.manifestId) && (tied ==> Names(x, body))
  }

  ghost predicate Backed(x: System, b: BookingId, tied: bool) {
    if tied then SettledFor(x, b) else exists id :: DeliveredInFull(x.chain, id)
  }

  lemma DeliveredInFullStays(s: State, s': State, id: Word)
    requires DeliveredInFull(s, id) && Evolved(s, s')
    ensures DeliveredInFull(s', id)
  {
    assert Follows(s.manifests[id], s'.manifests[id]);
  }

  lemma ChainMoves(v: Env, x: System, chain: State, call: Option<Call>)
    requires AllConsistent(x.chain)
    requires chain == if call.Some? then Custody.Step(v.crypto, x.chain, call.value) else x.chain
    ensures AllConsistent(chain)
    ensures forall id :: DeliveredInFull(x.chain, id) ==> DeliveredInFull(chain, id)
  {
    if call.Some? {
      StepKeepsConsistent(v.crypto, x.chain, call.value);
      forall id | DeliveredInFull(x.chain, id) ensures DeliveredInFull(chain, id) {
        DeliveredInFullStays(x.chain, chain, id);
      }
    }
  }

  /** Stored manifests are never changed, and the chain never unsettles one. */
  ghost predicate Onward(x: System, y: System) {
    && (forall id :: id in x.docs ==> id in y.docs && y.docs[id] == x.docs[id])
    && (forall id :: DeliveredInFull(x.chain, id) ==> DeliveredInFull(y.chain, id))
  }

  lemma StepIsOnward(v: Env, x: System, e: Event)
    requires AllConsistent(x.chain)
    ensures Onward(x, Step(v, x, e)) && AllConsistent(Step(v, x, e).chain)
  {
    ChainMovesByCalls(v, x, e);
    ChainMoves(v, x, Step(v, x, e).chain, CallOf(v, x, e));
    DocsStay(v, x, e);
  }

  lemma DocsStay(v: Env, x: System, e: Event)
    ensures forall id :: id in x.docs ==> id in Step(v, x, e).docs && Step(v, x, e).docs[id] == x.docs[id]
  {
  }

  lemma BackedOnward(x: System, y: System, b: BookingId, tied: bool)
    requires Onward(x, y) && Backed(x, b, tied)
    ensures Backed(y, b, tied)
  {
    if tied {
      var id :| id in x.docs && x.docs[id].bookingId == b && DeliveredInFull(x.chain, id);
      assert id in y.docs;
    }
  }

  /** A request that is about to pay was cleared by the chain, now or when it arrived. */
  lemma ReleasingWasCleared(v: Env, x: System, e: Event, p: nat, tied: bool)
    requires ChainBacked(x, tied) && (tied && Accepted(v, x, e) ==> Names(x, e.body))
    requires p in Step(v, x, e).procs && Step(v, x, e).procs[p].Releasing?
    ensures Cleared(x, Step(v, x, e).procs[p].body, tied)
  {
    if p in x.procs && x.procs[p] == Step(v, x, e).procs[p] {
    } else {
      match e
      case Webhook(_, _, body) => assert Consistent(x.chain.manifests[body.manifestId]);
      case _ => assert false;
    }
  }

  /** A released row was released before the step, or by a request the chain had cleared. */
  lemma ReleasedBefore(v: Env, x: System, e: Event, i: nat, tied: bool)
    requires ChainBacked(x, tied) && i < |Step(v, x, e).rows| && Step(v, x, e).rows[i].payout == Released
    ensures Backed(x, Step(v, x, e).rows[i].bookingId, tied)
  {
    match e
    case PayOut(p) =>
      if ProcOf(x, p).Releasing? {
        PaidWasBacked(x, ProcOf(x, p).body, i, tied);
      }
    case CreateCollection(bookings, b, n) => assert i < |x.rows| && x.rows[i].payout == Released;
    case Gateway(notice) => assert x.rows[i].payout == Released;
    case _ =>
  }

  lemma PaidWasBacked(x: System, body: Body, i: nat, tied: bool)
    requires ChainBacked(x, tied) && Cleared(x, body, tied)
    requires i < |Release(x.rows, body.bookingId)| && Release(x.rows, body.bookingId)[i].payout == Released
    ensures Backed(x, Release(x.rows, body.bookingId)[i].bookingId, tied)
  {
    if x.rows[i].payout != Released {
      assert x.rows[i].bookingId == body.bookingId && DeliveredInFull(x.chain, body.manifestId);
    }
  }

  lemma StepKeepsChainBacked(v: Env, x: System, e: Event, tied: bool)
    requires ChainBacked(x, tied) && (tied && Accepted(v, x, e) ==> Names(x, e.body))
    ensures ChainBacked(Step(v, x, e), tied)
  {
    var y := Step(v, x, e);
    StepIsOnward(v, x, e);
    forall p | p in y.procs && y.procs[p].Releasing? ensures Cleared(y, y.procs[p].body, tied) {
      ReleasingWasCleared(v, x, e, p, tied);
    }
    forall i | 0 <= i < |y.rows| && y.rows[i].payout == Released ensures Backed(y, y.rows[i].bookingId, tied) {
      ReleasedBefore(v, x, e, i, tied);
      BackedOnward(x, y, y.rows[i].bookingId, tied);
    }
  }

  lemma {:induction false} RunIsChainBacked(v: Env, deployer: Address, es: seq<Event>, tied: bool)
    requires tied ==> TiedRun(v, Genesis(deployer), es)
    ensures ChainBacked(Run(v, Genesis(deployer), es), tied)
  {
    if |es| > 0 {
      RunIsChainBacked(v, deployer, es[..|es| - 1], tied);
      StepKeepsChainBacked(v, Run(v, Genesis(deployer), es[..|es| - 1]), es[|es| - 1], tied);
    }
  }

  /** With arbitrary signers, but every accepted body naming its manifest's own booking, no run
      releases a payment whose booking the chain has not settled in full. */
  lemma TiedPayoutsNeedTheirOwnManifest(v: Env, deployer: Address, es: seq<Event>)
    requires TiedRun(v, Genesis(deployer), es)
    ensures AllSettled(Run(v, Genesis(deployer), es))
  {
    RunIsChainBacked(v, deployer, es, true);
  }

  /** Without that, all that is left is that some manifest has been settled in full. */
  lemma LeakedSecretStillNeedsTheChain(v: Env, deployer: Address, es: seq<Event>)
    ensures var y := Run(v, Genesis(deployer), es);
            (exists i :: 0 <= i < |y.rows| && y.rows[i].payout == Released) ==> exists id :: DeliveredInFull(y.chain, id)
  {
    RunIsChainBacked(v, deployer, es, false);
  }

  /** One accepted webhook that finds a paid and held row keeps every payout settled exactly
      when the booking it names is settled. */
  lemma WebhookKeepsSettledIff(v: Env, x: System, p: nat, body: Body, row: nat)
    requires ProcOf(x, p) == Done && Releasable(x.chain, body.manifestId) && AllSettled(x)
    requires row < |x.rows| && x.rows[row].bookingId == body.bookingId
    requires x.rows[row].status == Paid && x.rows[row].payout == Held
    ensures AllSettled(PaidOut(v, x, p, body)) <==> SettledFor(x, body.bookingId)
  {
    var y := PaidOut(v, x, p, body);
    PaidOutRows(v, x, p, body);
    assert forall b :: SettledFor(y, b) <==> SettledFor(x, b);
    assert y.rows[row].payout == Released && y.rows[row].bookingId == body.bookingId;
    if SettledFor(x, body.bookingId) {
      forall i | 0 <= i < |y.rows| && y.rows[i].payout == Released ensures SettledFor(y, y.rows[i].bookingId) {
        assert x.rows[i].payout == Released || x.rows[i].bookingId == body.bookingId;
      }
    }
  }

  lemma PaidOutRows(v: Env, x: System, p: nat, body: Body)
    requires ProcOf(x, p) == Done && Releasable(x.chain, body.manifestId)
    ensures var y := PaidOut(v, x, p, body);
            y.rows == Release(x.rows, body.bookingId) && y.chain == x.chain && y.docs == x.docs
  {
  }

  /** The failure: with the internal secret, a delivered manifest's id and a short manifest's
      booking, the handler pays out the short delivery the chain had frozen. */
  lemma ForgedBodyPaysShort(v: Env, x: System, p: nat, good: Word, short: Word, row: nat)
    requires Safe(x) && ProcOf(x, p) == Done && Releasable(x.chain, good)
    requires short in x.docs && x.chain.manifests[short].status == Short
    requires row < |x.rows| && x.rows[row].bookingId == x.docs[short].bookingId
    requires x.rows[row].status == Paid && x.rows[row].payout == Held
    ensures var y := PaidOut(v, x, p, Body(good, x.docs[short].bookingId, 0));
            && y.rows[row].payout == Released && y.chain.manifests[short].status == Short
            && !SettledFor(y, y.rows[row].bookingId) && !AllSettled(y)
  {
    var body := Body(good, x.docs[short].bookingId, 0);
    PaidOutRows(v, x, p, body);
    PaidOutWhenReleasable(v, x, p, body, row);
    var y := PaidOut(v, x, p, body);
    assert Consistent(x.chain.manifests[short]);
    assert forall k :: k in x.docs && k != short ==> x.docs[k].bookingId != x.docs[short].bookingId;
    assert !SettledFor(y, x.docs[short].bookingId);
  }
}
