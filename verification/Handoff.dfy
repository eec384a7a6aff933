/** The off-chain mirror of custody: a read model refreshed from the chain, and the loss attribution built on it. */
module Handoff {
  import opened Wrappers
  import opened ByteStrings
  import opened Custody

  datatype Window = LoadingWindow | TransitWindow | UnloadingWindow | ClosedWindow | DisputedWindow

  /** The status is None for an id the contract has never seen. */
  datatype CustodyRecord = CustodyRecord(
    status: Option<Status>, window: Window, pieceCount: UInt32, deliveredCount: UInt32,
    custodyStartAt: Option<UInt64>, deliveredAt: Option<UInt64>,
    loaderSigned: bool, driverSigned: bool, receiverSigned: bool)

  datatype Severity = Info | Warn | Critical

  datatype Alert =
    | TransitionAlert(id: Word, before: Option<Status>, after: Option<Status>, severity: Severity)
    | ShortageAlert(id: Word, missing: nat, liable: Role)
    | OffManifestAlert(id: Word, pieceIds: seq<nat>)
    | DivergenceAlert(id: Word, offChainOk: bool, chainOk: bool)
    | ForkAlert(pieceId: nat, home: Option<Word>)

  datatype Role = Driver | Undetermined

  datatype Attribution = Attribution(lost: int, window: Window, liableRole: Role)

  function WindowFor(status: Option<Status>): Window {
    match status
    case Some(Created) => LoadingWindow
    case Some(InCustody) => TransitWindow
    case Some(Delivered) => ClosedWindow
    case Some(Short) => UnloadingWindow
    case Some(Disputed) => DisputedWindow
    case None => ClosedWindow
  }

  /** A chain timestamp, null when it is zero. */
  function NonZero(t: UInt64): Option<UInt64> {
    if t == 0 then None else Some(t)
  }

  /** What sync reads from the chain. */
  function RecordOf(manifests: map<Word, Manifest>, id: Word): CustodyRecord {
    if id !in manifests then CustodyRecord(None, ClosedWindow, 0, 0, None, None, false, false, false)
    else
      var m := manifests[id];
      CustodyRecord(Some(m.status), WindowFor(Some(m.status)), m.pieceCount, m.deliveredCount,
                    NonZero(m.custodyStartAt), NonZero(m.deliveredAt),
                    m.loaderSigned, m.driverSigned, m.receiverSigned)
  }

  /** The party a shortage is pinned on, from one record. */
  function AttributionOf(r: CustodyRecord): Attribution {
    var lost := r.pieceCount as int - r.deliveredCount as int;
    if r.status != Some(Short) then Attribution(0, r.window, Undetermined)
    else Attribution(lost, TransitWindow,
                     if r.loaderSigned && r.driverSigned && r.receiverSigned then Driver else Undetermined)
  }

  /** The window a record names, told from the signatures and counts of its manifest. */
  lemma WindowMeans(m: Manifest, id: Word)
    requires Consistent(m)
    ensures var w := RecordOf(map[id := m], id).window;
            var loaded := m.loaderSigned && m.driverSigned;
            && (w == DisputedWindow <==> m.status == Disputed)
            && (w == LoadingWindow <==> m.status != Disputed && !loaded)
            && (w == TransitWindow <==> m.status != Disputed && loaded && !m.receiverSigned)
            && (w == UnloadingWindow <==> m.status != Disputed && m.receiverSigned && m.deliveredCount < m.pieceCount)
            && (w == ClosedWindow <==> m.status != Disputed && m.receiverSigned && m.deliveredCount == m.pieceCount)
  {
  }

  /** A shortage is always pinned on the driver, with at least one lost piece: no run of the
      contract reaches Short without all three signatures and a smaller count. */
  lemma ShortAlwaysBlamesDriver(c: Crypto, deployer: Address, calls: seq<Call>, id: Word)
    ensures var manifests := Run(c, Genesis(deployer), calls).manifests;
            var a := AttributionOf(RecordOf(manifests, id));
            && (a.liableRole == Driver <==> id in manifests && manifests[id].status == Short)
            && (a.lost > 0 <==> id in manifests && manifests[id].status == Short)
            && (a.lost > 0 ==> a.lost + manifests[id].deliveredCount == manifests[id].pieceCount
                               && a.window == TransitWindow)
  {
    RunKeepsConsistent(c, Genesis(deployer), calls);
    var manifests := Run(c, Genesis(deployer), calls).manifests;
    assert id in manifests ==> Consistent(manifests[id]);
  }

  /** A shortage verdict never changes afterwards, unless the manifest is disputed. */
  lemma ShortVerdictIsFinal(c: Crypto, s: State, calls: seq<Call>, id: Word)
    requires AllConsistent(s) && id in s.manifests && s.manifests[id].status == Short
    ensures var later := Run(c, s, calls).manifests;
            id in later && (later[id].status == Disputed
                            || AttributionOf(RecordOf(later, id)) == AttributionOf(RecordOf(s.manifests, id)))
  {
    RunKeepsConsistent(c, s, calls);
    assert Follows(s.manifests[id], Run(c, s, calls).manifests[id]);
    assert Consistent(s.manifests[id]) && Consistent(Run(c, s, calls).manifests[id]);
  }

  class AlertSink {
    var raised: seq<Alert>

    constructor ()
      ensures raised == []
    {
      raised := [];
    }

    method Raise(a: Alert)
      modifies this
      ensures raised == old(raised) + [a]
    {
      raised := raised + [a];
    }
  }

  /** The row an upsert leaves: an existing row keeps its piece count. */
  function Upserted(records: map<Word, CustodyRecord>, id: Word, r: CustodyRecord): map<Word, CustodyRecord> {
    records[id := if id in records then r.(pieceCount := records[id].pieceCount) else r]
  }

  /** A synced row is the chain's record but for the piece count, which stays as first cached;
      no other row is touched. */
  lemma UpsertedMeans(records: map<Word, CustodyRecord>, m: Manifest, id: Word, other: Word)
    requires other != id
    ensures var after := Upserted(records, id, RecordOf(map[id := m], id));
            && id in after && after[id].status == Some(m.status) && after[id].deliveredCount == m.deliveredCount
            && after[id].pieceCount == (if id in records then records[id].pieceCount else m.pieceCount)
            && after[id].custodyStartAt == (if m.custodyStartAt == 0 then None else Some(m.custodyStartAt))
            && after[id].deliveredAt == (if m.deliveredAt == 0 then None else Some(m.deliveredAt))
            && (after[id].loaderSigned <==> m.loaderSigned) && (after[id].driverSigned <==> m.driverSigned)
            && (after[id].receiverSigned <==> m.receiverSigned)
            && (other in after <==> other in records) && (other in records ==> after[other] == records[other])
  {
  }

  /** What a sync announces: a status that is not the cached one. */
  function Transition(records: map<Word, CustodyRecord>, id: Word, r: CustodyRecord): seq<Alert> {
    if id in records && records[id].status != r.status
    then [TransitionAlert(id, records[id].status, r.status, if r.status == Some(Short) then Critical else Info)]
    else []
  }

  /** A sync announces exactly a status that differs from the cached one, critically exactly when
      the new one is Short. */
  lemma TransitionMeans(records: map<Word, CustodyRecord>, id: Word, r: CustodyRecord)
    ensures |Transition(records, id, r)| <= 1
    ensures |Transition(records, id, r)| == 1 <==> id in records && records[id].status != r.status
    ensures |Transition(records, id, r)| == 1 ==>
              && var a := Transition(records, id, r)[0];
              && a.TransitionAlert? && a.id == id && a.before == records[id].status && a.after == r.status
              && (a.severity == Critical <==> r.status == Some(Short)) && a.severity != Warn
  {
  }

  class HandoffService {
    const chain: CustodyManifest
    const alerts: AlertSink
    var records: map<Word, CustodyRecord>

    constructor (chain: CustodyManifest, alerts: AlertSink)
      ensures this.chain == chain && this.alerts == alerts && records == map[]
    {
      this.chain, this.alerts, records := chain, alerts, map[];
    }

    /** The chain always wins: the result is the chain's view, whatever the cache said, and a
        changed status is announced. */
    method Sync(id: Word) returns (r: CustodyRecord)
      modifies this, alerts
      ensures r == RecordOf(chain.manifests, id)
      ensures records == Upserted(old(records), id, r)
      ensures alerts.raised == old(alerts.raised) + Transition(old(records), id, r)
    {
      r := RecordOf(chain.manifests, id);
      if id in records && records[id].status != r.status {
        alerts.Raise(TransitionAlert(id, records[id].status, r.status,
                                       if r.status == Some(Short) then Critical else Info));
      }
      records := records[id := if id in records then r.(pieceCount := records[id].pieceCount) else r];
    }

    method AttributeLoss(id: Word) returns (a: Attribution)
      modifies this, alerts
      ensures a == AttributionOf(RecordOf(chain.manifests, id))
      ensures records == Upserted(old(records), id, RecordOf(chain.manifests, id))
      ensures alerts.raised == old(alerts.raised) + Transition(old(records), id, RecordOf(chain.manifests, id))
    {
      var r := Sync(id);
      a := AttributionOf(r);
    }

    /** The scanner's guard: goods can be scanned in only while they are in transit. */
    method AssertScannable(id: Word) returns (ok: bool)
      modifies this, alerts
      ensures ok <==> id in chain.manifests && chain.manifests[id].status == InCustody
    {
      var r := Sync(id);
      ok := r.status == Some(InCustody);
    }
  }
}
