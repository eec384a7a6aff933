/** The money seam: sign the count that was scanned, decide, and ask for the payout. */
module ReleaseGate {
  import opened Wrappers
  import opened ByteStrings
  import opened Seqs
  import opened Custody
  import opened Handoff
  import opened ScanLog
  import opened Reconciliation

  /** A booking's UUID, read as its 128-bit number. */
  type BookingId = x: int | 0 <= x < 0x1_0000000000000000_0000000000000000

  /** A stored manifest document; its schema fixes the piece count and forbids repeats. */
  datatype Doc = Doc(bookingId: BookingId, transporterId: nat, pieces: seq<PieceId>)

  ghost predicate ValidDoc(d: Doc) {
    1 <= |d.pieces| < TWO_32 && NoRepeats(d.pieces)
  }

  datatype Reason =
    | CompleteScanMatch | ShortDelivery | OffManifestPieces | NotYetConfirmed | InDispute | ChainDisagrees

  datatype Decision = Decision(releasable: bool, reason: Reason, diverges: bool)

  /** The payload of the payout webhook. */
  datatype Body = Body(manifestId: Word, bookingId: BookingId, transporterId: nat)

  /** The decision from a reconciliation, a synced status and the chain's own answer. */
  function Decide(rec: ReconcileResult, status: Option<Status>, chainSaysOk: bool): Decision {
    var offChainSaysOk := rec.complete && status == Some(Delivered);
    Decision(chainSaysOk && offChainSaysOk, ReasonOf(rec, status, chainSaysOk), offChainSaysOk != chainSaysOk)
  }

  function ReasonOf(rec: ReconcileResult, status: Option<Status>, chainSaysOk: bool): Reason {
    if status == Some(Disputed) then InDispute
    else if status == Some(InCustody) then NotYetConfirmed
    else if rec.extra > 0 then OffManifestPieces
    else if rec.missing > 0 then ShortDelivery
    else if !chainSaysOk then ChainDisagrees
    else CompleteScanMatch
  }

  /** The reconciliation of a manifest against the log as it stands. */
  function Reconciled(doc: Doc, log: seq<ScanEvent>, id: Word): ReconcileResult {
    ReconcileOf(|doc.pieces|, doc.pieces, ByManifest(log, id, Unloading))
  }

  function StatusOf(manifests: map<Word, Manifest>, id: Word): Option<Status> {
    if id in manifests then Some(manifests[id].status) else None
  }

  /** A decision taken without interruption on a consistent chain. */
  function DecideNow(chain: State, doc: Doc, log: seq<ScanEvent>, id: Word): Decision {
    Decide(Reconciled(doc, log, id), StatusOf(chain.manifests, id), Releasable(chain, id))
  }

  /** A decision in one go: payable exactly when the scans are the manifest and the chain
      says Delivered; the stated reason says so exactly then; and any divergence means the
      scans changed after signing (or were never complete), never that the chain is wrong. */
  lemma DecisionMeaning(chain: State, doc: Doc, log: seq<ScanEvent>, id: Word)
    requires AllConsistent(chain) && ValidDoc(doc)
    ensures var d := DecideNow(chain, doc, log, id);
            var matches := Scanned(log, id, Unloading) == Members(doc.pieces);
            var delivered := id in chain.manifests && chain.manifests[id].status == Delivered;
            && (d.releasable <==> matches && delivered)
            && (d.releasable <==> d.reason == CompleteScanMatch)
            && (d.diverges <==> delivered && !matches)
  {
    CompleteMeansEqual(doc, log, id);
    if id in chain.manifests {
      assert Consistent(chain.manifests[id]);
    }
  }

  /** Each stated reason, of an uninterrupted decision, in terms of the scans and the chain. */
  lemma ReasonMeaning(chain: State, doc: Doc, log: seq<ScanEvent>, id: Word)
    ensures var reason := DecideNow(chain, doc, log, id).reason;
            var status := StatusOf(chain.manifests, id);
            var scanned, expected := Scanned(log, id, Unloading), Members(doc.pieces);
            var judged := status != Some(Disputed) && status != Some(InCustody);
            && (reason == InDispute <==> status == Some(Disputed))
            && (reason == NotYetConfirmed <==> status == Some(InCustody))
            && (reason == OffManifestPieces <==> judged && !(scanned <= expected))
            && (reason == ShortDelivery <==> judged && scanned < expected)
            && (reason == ChainDisagrees <==> judged && scanned == expected && !Releasable(chain, id))
  {
    CompleteMeansEqual(doc, log, id);
    NoneExtra(|doc.pieces|, doc.pieces, ByManifest(log, id, Unloading));
    ScannedIsMembers(log, id, Unloading);
  }

  /** Complete means the scanned set is the manifest set. */
  lemma CompleteMeansEqual(doc: Doc, log: seq<ScanEvent>, id: Word)
    ensures Reconciled(doc, log, id).complete <==> Scanned(log, id, Unloading) == Members(doc.pieces)
    ensures Reconciled(doc, log, id).missing == 0 <==> Members(doc.pieces) <= Scanned(log, id, Unloading)
  {
    ReconcileMeaning(|doc.pieces|, doc.pieces, ByManifest(log, id, Unloading));
    NoneMissing(|doc.pieces|, doc.pieces, ByManifest(log, id, Unloading));
    ScannedIsMembers(log, id, Unloading);
  }

  /** With interruptions the chain may move between the reads. Payable still means a
      complete reconciliation, a Delivered status and the chain's yes, and then the reason
      is the match; the converse fails only if the manifest closed between the two reads. */
  lemma InterruptedDecision(rec: ReconcileResult, status: Option<Status>, chainSaysOk: bool)
    requires rec.complete <==> rec.missing == 0 && rec.extra == 0
    ensures var d := Decide(rec, status, chainSaysOk);
            && (d.releasable ==> d.reason == CompleteScanMatch)
            && (d.reason == CompleteScanMatch && !d.releasable <==>
                  chainSaysOk && rec.complete && (status == None || status == Some(Created) || status == Some(Short)))
  {
    match status
    case None =>
    case Some(Created) =>
    case Some(InCustody) =>
    case Some(Delivered) =>
    case Some(Short) =>
    case Some(Disputed) =>
  }

  // ---------------------------------------------------------------- the honest count

  function ConfirmCall(c: Crypto, id: Word, count: UInt32, sender: Address, now: nat, signer: Bytes32 -> Bytes): Call {
    Call(sender, now, ConfirmDelivery(id, count, signer(DeliveryDigest(c, id, count))))
  }

  /** Submitting the count of a reconciliation never trips CountExceedsManifest, and the
      chain then says Delivered exactly when that reconciliation missed nothing, else Short. */
  lemma HonestCount(c: Crypto, s: State, id: Word, pieces: seq<PieceId>, events: seq<ScanEvent>,
                    sender: Address, now: nat, signer: Bytes32 -> Bytes)
    requires NoRepeats(pieces) && |pieces| < TWO_32
    requires id in s.manifests ==> s.manifests[id].pieceCount == |pieces|
    ensures var r := ReconcileOf(|pieces|, pieces, events);
            && r.scanned <= |pieces|
            && var call := ConfirmCall(c, id, r.scanned, sender, now, signer);
            && Apply(c, s, call) != Err(CountExceedsManifest)
            && (Apply(c, s, call).Ok? ==>
                  && id in s.manifests
                  && var m := Step(c, s, call).manifests[id];
                  && m.deliveredCount == r.scanned
                  && (m.status == Delivered <==> r.missing == 0)
                  && (m.status == Short <==> r.missing > 0))
  {
    ScannedCountBounded(pieces, events);
  }

  /** How a confirmed manifest stands to the reconciliation that was signed: measured against
      the chain's own count, which is Delivered exactly if nothing was missing where that
      count is the document's. */
  predicate Settles(chain: State, doc: Doc, rec: ReconcileResult, id: Word) {
    && id in chain.manifests
    && var m := chain.manifests[id];
    && m.deliveredCount == rec.scanned <= m.pieceCount
    && m.status == (if rec.scanned == m.pieceCount then Delivered else Short)
    && (m.pieceCount == |doc.pieces| ==> (m.status == Delivered <==> rec.missing == 0))
  }

  /** Whatever count the chain holds, a submitted reconciliation settles the manifest by it,
      and is refused for its size exactly where too many pieces were scanned. */
  lemma ReconciledSettles(c: Crypto, s: State, id: Word, doc: Doc, log: seq<ScanEvent>,
                          sender: Address, now: nat, signer: Bytes32 -> Bytes)
    requires ValidDoc(doc)
    ensures var rec := Reconciled(doc, log, id);
            && rec.scanned < TWO_32
            && var call := ConfirmCall(c, id, rec.scanned, sender, now, signer);
            && (Apply(c, s, call) == Err(CountExceedsManifest) ==>
                  id in s.manifests && s.manifests[id].pieceCount < rec.scanned)
            && (Apply(c, s, call).Ok? ==> Settles(Step(c, s, call), doc, rec, id))
  {
    ScannedCountBounded(doc.pieces, ByManifest(log, id, Unloading));
  }

  // ---------------------------------------------------------------- alerts

  /** What an evaluation announces: a changed status, then any divergence. */
  function EvaluationAlerts(records: map<Word, CustodyRecord>, chain: State, id: Word, d: Decision): seq<Alert> {
    Transition(records, id, RecordOf(chain.manifests, id))
    + if d.diverges then [DivergenceAlert(id, !Releasable(chain, id), Releasable(chain, id))] else []
  }

  /** What a signed count announces: off-manifest pieces, then a shortage with its liable party. */
  function AnomalyAlerts(records: map<Word, CustodyRecord>, chain: State, id: Word, rec: ReconcileResult): seq<Alert> {
    var r := RecordOf(chain.manifests, id);
    (if |rec.offManifestPieceIds| > 0 then [OffManifestAlert(id, rec.offManifestPieceIds)] else [])
    + if rec.missing > 0 then Transition(records, id, r) + [ShortageAlert(id, rec.missing, AttributionOf(r).liableRole)]
      else []
  }

  /** Which alerts there are, one by one: each kind exactly under its condition, with these contents. */
  lemma AlertsMean(records: map<Word, CustodyRecord>, chain: State, id: Word, rec: ReconcileResult, d: Decision, a: Alert)
    ensures var r := RecordOf(chain.manifests, id);
            var noted := id in records && records[id].status != r.status
                         && a == TransitionAlert(id, records[id].status, r.status,
                                                 if r.status == Some(Short) then Critical else Info);
            && (a in EvaluationAlerts(records, chain, id, d) <==>
                  noted || (d.diverges && a == DivergenceAlert(id, !Releasable(chain, id), Releasable(chain, id))))
            && (a in AnomalyAlerts(records, chain, id, rec) <==>
                  || (rec.offManifestPieceIds != [] && a == OffManifestAlert(id, rec.offManifestPieceIds))
                  || (rec.missing > 0 &&
                        (noted || a == ShortageAlert(id, rec.missing,
                                                     if r.status == Some(Short) && r.loaderSigned && r.driverSigned
                                                        && r.receiverSigned then Driver else Undetermined))))
  {
  }

  // ---------------------------------------------------------------- the service

  datatype GateError = ManifestNotFound | Reverted(error: Custody.Error)

  class Gate {
    const chain: CustodyManifest
    const handoff: HandoffService
    const alerts: AlertSink
    const lifecycle: LifecycleStore
    var docs: map<Word, Doc>
    /** Requests posted to the platform webhook, oldest first. */
    var sent: seq<Body>

    ghost predicate Valid()
      reads this
    {
      && handoff.chain == chain && handoff.alerts == alerts
      && forall id :: id in docs ==> ValidDoc(docs[id])
    }

    constructor (chain: CustodyManifest, handoff: HandoffService, lifecycle: LifecycleStore, docs: map<Word, Doc>)
      requires handoff.chain == chain
      requires forall id :: id in docs ==> ValidDoc(docs[id])
      ensures Valid() && this.docs == docs && sent == []
      ensures this.chain == chain && this.handoff == handoff && this.lifecycle == lifecycle
    {
      this.chain, this.handoff, this.lifecycle, this.docs := chain, handoff, lifecycle, docs;
      alerts, sent := handoff.alerts, [];
    }

    /** counter.reconcile: the manifest's document against its unloading scans. */
    method ReconcileNow(id: Word) returns (r: Option<ReconcileResult>)
      ensures r == if id in docs then Some(Reconciled(docs[id], lifecycle.log, id)) else None
    {
      if id !in docs { return None; }
      var rec := Reconcile(|docs[id].pieces|, docs[id].pieces, ByManifest(lifecycle.log, id, Unloading));
      return Some(rec);
    }

    method Reason(rec: ReconcileResult, status: Option<Status>, chainSaysOk: bool) returns (reason: Reason)
      ensures reason == ReasonOf(rec, status, chainSaysOk)
    {
      if status == Some(Disputed) {
        reason := InDispute;
      } else if status == Some(InCustody) {
        reason := NotYetConfirmed;
      } else if rec.extra > 0 {
        reason := OffManifestPieces;
      } else if rec.missing > 0 {
        reason := ShortDelivery;
      } else if !chainSaysOk {
        reason := ChainDisagrees;
      } else {
        reason := CompleteScanMatch;
      }
    }

    /** Step 2: no write to the chain or the log; None stands for MANIFEST_NOT_FOUND. */
    method Evaluate(id: Word) returns (d: Option<Decision>)
      requires Valid()
      modifies handoff, alerts
      ensures d == if id in docs then Some(DecideNow(chain.View(), docs[id], lifecycle.log, id)) else None
      ensures alerts.raised == old(alerts.raised) +
                (if d.Some? then EvaluationAlerts(old(handoff.records), chain.View(), id, d.value) else [])
    {
      var rec := ReconcileNow(id);
      if rec.None? { return None; }
      var custody := handoff.Sync(id);
      var chainSaysOk := chain.IsReleasable(id);
      var reason := Reason(rec.value, custody.status, chainSaysOk);
      var offChainSaysOk := rec.value.complete && custody.status == Some(Delivered);
      AppendAssoc(old(alerts.raised), Transition(old(handoff.records), id, custody),
                  [DivergenceAlert(id, offChainSaysOk, chainSaysOk)]);
      if offChainSaysOk != chainSaysOk {
        alerts.Raise(DivergenceAlert(id, offChainSaysOk, chainSaysOk));
      }
      return Some(Decision(chainSaysOk && offChainSaysOk, reason, offChainSaysOk != chainSaysOk));
    }

    /** After signing: off-manifest pieces and shortages are announced, with the liable party. */
    method AlertAnomalies(id: Word, rec: ReconcileResult)
      requires Valid()
      modifies handoff, alerts
      ensures alerts.raised == old(alerts.raised) + AnomalyAlerts(old(handoff.records), chain.View(), id, rec)
      ensures handoff.records == if rec.missing > 0
                                 then Upserted(old(handoff.records), id, RecordOf(chain.manifests, id))
                                 else old(handoff.records)
    {
      if |rec.offManifestPieceIds| > 0 {
        alerts.Raise(OffManifestAlert(id, rec.offManifestPieceIds));
      }
      if rec.missing > 0 {
        var attribution := handoff.AttributeLoss(id);
        alerts.Raise(ShortageAlert(id, rec.missing, attribution.liableRole));
      }
    }

    /** Signs a count and submits it to the chain. */
    method SubmitCount(id: Word, count: UInt32, sender: Address, now: nat, signer: Bytes32 -> Bytes)
      returns (r: Result<(), Custody.Error>)
      modifies chain
      ensures var call := ConfirmCall(chain.crypto, id, count, sender, now, signer);
              && chain.View() == Step(chain.crypto, old(chain.View()), call)
              && (r.Err? <==> Apply(chain.crypto, old(chain.View()), call).Err?)
              && (r.Err? ==> r.error == Apply(chain.crypto, old(chain.View()), call).error)
    {
      var sig := signer(DeliveryDigest(chain.crypto, id, count));
      r := chain.ConfirmDelivery(sender, now, id, count, sig);
    }

    /** Step 1: the receiver signs the true scanned count and the chain records it. A chain
        revert aborts with the chain unchanged; `signer` stands for the signing service. */
    method ConfirmAndSign(id: Word, sender: Address, now: nat, signer: Bytes32 -> Bytes)
      returns (d: Result<Decision, GateError>)
      requires Valid()
      modifies chain, handoff, alerts
      ensures d == Err(ManifestNotFound) <==> id !in docs
      ensures d.Err? ==> chain.View() == old(chain.View()) && alerts.raised == old(alerts.raised)
      ensures id in docs ==>
                && var count := Reconciled(docs[id], lifecycle.log, id).scanned;
                && count < TWO_32
                && var call := ConfirmCall(chain.crypto, id, count, sender, now, signer);
                && chain.View() == Step(chain.crypto, old(chain.View()), call)
                && (d.Err? <==> Apply(chain.crypto, old(chain.View()), call).Err?)
                && (d.Err? ==> d == Err(Reverted(Apply(chain.crypto, old(chain.View()), call).error)))
                && (d == Err(Reverted(CountExceedsManifest)) ==>
                      id in chain.manifests && chain.manifests[id].pieceCount < count)
      ensures d.Ok? ==>
                && d.value == DecideNow(chain.View(), docs[id], lifecycle.log, id)
                && Settles(chain.View(), docs[id], Reconciled(docs[id], lifecycle.log, id), id)
      ensures d.Ok? ==>
                && var rec := Reconciled(docs[id], lifecycle.log, id);
                && alerts.raised == old(alerts.raised)
                     + AnomalyAlerts(old(handoff.records), chain.View(), id, rec)
                     + EvaluationAlerts(if rec.missing > 0
                                        then Upserted(old(handoff.records), id, RecordOf(chain.manifests, id))
                                        else old(handoff.records), chain.View(), id, d.value)
    {
      var found := ReconcileNow(id);
      if found.None? { return Err(ManifestNotFound); }
      var rec := found.value;
      var count := rec.scanned;
      ReconciledSettles(chain.crypto, chain.View(), id, docs[id], lifecycle.log, sender, now, signer);
      var outcome := SubmitCount(id, count, sender, now, signer);
      if outcome.Err? { return Err(Reverted(outcome.error)); }
      AlertAnomalies(id, rec);
      var decision := Evaluate(id);
      return Ok(decision.value);
    }

    /** Step 3: the webhook is posted exactly when the evaluation says releasable. */
    method RequestPayout(id: Word) returns (d: Option<Decision>)
      requires Valid()
      modifies this`sent, handoff, alerts
      ensures d == if id in docs then Some(DecideNow(chain.View(), docs[id], lifecycle.log, id)) else None
      ensures sent == old(sent) +
                (if id in docs && DecideNow(chain.View(), docs[id], lifecycle.log, id).releasable
                 then [Body(id, docs[id].bookingId, docs[id].transporterId)] else [])
    {
      d := Evaluate(id);
      if d.Some? && d.value.releasable {
        sent := sent + [Body(id, docs[id].bookingId, docs[id].transporterId)];
      }
    }
  }
}
