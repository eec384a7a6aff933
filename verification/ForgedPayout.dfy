/**
 * A run from deployment, honest up to its last two steps, in which a webhook signed with the
 * leaked internal secret pays out a short delivery under another manifest's id.
 */
module ForgedPayout {
  import opened Wrappers
  import opened ByteStrings
  import Custody
  import opened ScanLog
  import opened Reconciliation
  import opened ReleaseGate
  import opened Payments
  import opened PayoutSafety

  const PLATFORM: Address := 1

  /** Loader, driver and receiver; every signature recovers to them. */
  const PARTY: Address := 7

  function AnyDigest(b: Bytes): Bytes32 {
    ZERO32
  }

  function AnySigner(digest: Bytes32, v: Byte, r: Bytes32, s: Bytes32): Address {
    PARTY
  }

  function AnyMac(body: Body): nat {
    0
  }

  const ENV := Env(Custody.Crypto(AnyDigest, AnySigner, 0, 0), AnyMac)

  function Sig(): (sig: Bytes)
    ensures |sig| == 65
  {
    ZERO32 + ZERO32 + [27]
  }

  function SignedBy(digest: Bytes32): Bytes {
    Sig()
  }

  lemma SigRecovers(digest: Bytes32)
    ensures Custody.Recover(ENV.crypto, digest, Sig()) == Some(PARTY)
  {
    assert Sig()[64] == 27;
  }

  // ---------------------------------------------------------------- honest runs

  /** x is reached from deployment by these events, all of them honest. */
  ghost predicate Reached(es: seq<Event>, x: System) {
    HonestRun(ENV, Genesis(PLATFORM), es) && Run(ENV, Genesis(PLATFORM), es) == x
  }

  lemma Then(es: seq<Event>, x: System, e: Event, y: System)
    requires Reached(es, x) && Honest(ENV, x, e) && Step(ENV, x, e) == y
    ensures Reached(es + [e], y)
  {
    assert (es + [e])[..|es|] == es;
  }

  // ---------------------------------------------------------------- one delivery

  const CREATED := Custody.Manifest(0, 1, 0, PARTY, PARTY, PARTY, false, false, false, 0, 0, 0, Custody.Created)
  const LOADER_SIGNED := CREATED.(loaderSigned := true)
  const MOVING := LOADER_SIGNED.(driverSigned := true, status := Custody.InCustody)

  function Count(scanned: bool): UInt32 {
    if scanned then 1 else 0
  }

  function Arrived(scanned: bool): Custody.Manifest {
    MOVING.(receiverSigned := true, deliveredCount := Count(scanned),
            status := if scanned then Custody.Delivered else Custody.Short)
  }

  function DocFor(id: Word): Doc
    requires id < 10
  {
    Doc(id, 0, [id])
  }

  function ScanOf(id: Word): ScanEvent {
    ScanEvent(id, Some(id), Unloading, 0, None)
  }

  /** With m on chain for id, and request 0 at the given point. */
  function At(x: System, id: Word, m: Custody.Manifest, proc: Proc): System {
    x.(chain := x.chain.(manifests := x.chain.manifests[id := m]), procs := x.procs[0 := proc])
  }

  function Stored(x: System, id: Word): System
    requires id < 10
  {
    x.(docs := x.docs[id := DocFor(id)])
  }

  predicate ReadyFor(x: System, id: Word) {
    && id < 10 && PLATFORM in x.chain.platforms && id !in x.chain.manifests && id !in x.docs
    && ProcOf(x, 0) == Done
    && (forall k :: k in x.docs ==> k < 10 && x.docs[k] == DocFor(k))
    && (forall e :: e in x.log ==> e.manifestId != Some(id))
  }

  function AnchorEvent(id: Word): Event
    requires id < 10
  {
    Anchor(0, id, DocFor(id), Custody.Call(PLATFORM, 0, Custody.CreateManifest(id, 0, 1, PARTY, PARTY, PARTY)))
  }

  lemma Anchors(x: System, id: Word)
    requires ReadyFor(x, id)
    ensures Step(ENV, x, AnchorEvent(id)) == At(x, id, CREATED, Anchored(id, DocFor(id)))
    ensures ValidDoc(DocFor(id))
  {
  }

  lemma Stores(x: System, id: Word)
    requires ReadyFor(x, id)
    ensures Step(ENV, At(x, id, CREATED, Anchored(id, DocFor(id))), StoreDoc(0)) == At(Stored(x, id), id, CREATED, Done)
  {
    assert forall k :: k in x.docs ==> Members(DocFor(k).pieces) !! Members(DocFor(id).pieces);
    var y := At(x, id, CREATED, Anchored(id, DocFor(id)));
    assert Insertable(y.docs, id, DocFor(id));
    assert y.procs[0 := Done] == x.procs[0 := Done];
  }

  function LoaderCall(id: Word): Custody.Call {
    Custody.Call(PLATFORM, 0, Custody.SubmitLoaderSignature(id, Sig()))
  }

  function DriverCall(id: Word): Custody.Call {
    Custody.Call(PLATFORM, 0, Custody.SubmitDriverSignature(id, Sig()))
  }

  predicate Holds(s: Custody.State, id: Word, m: Custody.Manifest) {
    PLATFORM in s.platforms && id in s.manifests && s.manifests[id] == m
  }

  lemma PlatformWrites(c: Custody.Crypto, s: Custody.State, call: Custody.Call, m: Custody.Manifest)
    requires call.sender in s.platforms && !Custody.IsAdmin(call.op)
    requires Custody.Written(c, s, call.op, call.now) == Ok(m)
    ensures Custody.Step(c, s, call) == s.(manifests := s.manifests[call.op.id := m])
  {
  }

  lemma LoaderSigns(c: Custody.Crypto, s: Custody.State, id: Word)
    requires Holds(s, id, CREATED) && Custody.Recover(c, Custody.LoadingDigest(c, id), Sig()) == Some(PARTY)
    ensures Custody.Step(c, s, LoaderCall(id)) == s.(manifests := s.manifests[id := LOADER_SIGNED])
  {
    PlatformWrites(c, s, LoaderCall(id), LOADER_SIGNED);
  }

  lemma DriverSigns(c: Custody.Crypto, s: Custody.State, id: Word)
    requires Holds(s, id, LOADER_SIGNED) && Custody.Recover(c, Custody.LoadingDigest(c, id), Sig()) == Some(PARTY)
    ensures Custody.Step(c, s, DriverCall(id)) == s.(manifests := s.manifests[id := MOVING])
  {
    PlatformWrites(c, s, DriverCall(id), MOVING);
  }

  lemma ReceiverSigns(c: Custody.Crypto, s: Custody.State, id: Word, scanned: bool)
    requires Holds(s, id, MOVING)
    requires Custody.Recover(c, Custody.DeliveryDigest(c, id, Count(scanned)), Sig()) == Some(PARTY)
    ensures Custody.Step(c, s, ConfirmCall(c, id, Count(scanned), PLATFORM, 0, SignedBy))
            == s.(manifests := s.manifests[id := Arrived(scanned)])
  {
    PlatformWrites(c, s, ConfirmCall(c, id, Count(scanned), PLATFORM, 0, SignedBy), Arrived(scanned));
  }

  lemma GoesOn(x: System, id: Word, m: Custody.Manifest, proc: Proc, next: Proc)
    ensures Goes(At(x, id, m, proc), 0, next) == At(x, id, m, next)
  {
    assert x.procs[0 := proc][0 := next] == x.procs[0 := next];
  }

  lemma Overwrites(x: System, id: Word, m: Custody.Manifest, m': Custody.Manifest, call: Custody.Call, proc: Proc)
    requires var s := At(x, id, m, proc).chain;
             Custody.Step(ENV.crypto, s, call) == s.(manifests := s.manifests[id := m'])
    ensures var y := At(x, id, m, proc);
            y.(chain := Custody.Step(ENV.crypto, y.chain, call)) == At(x, id, m', proc)
  {
    var s := At(x, id, m, proc).chain;
    assert s.manifests[id := m'] == x.chain.manifests[id := m'];
  }

  function Unloaded(x: System, id: Word, scanned: bool): System {
    if scanned then x.(log := x.log + [ScanOf(id)]) else x
  }

  lemma OnePiece(x: System, id: Word, scanned: bool)
    requires ReadyFor(x, id)
    ensures Scanned(Unloaded(x, id, scanned).log, id, Unloading) == if scanned then {id} else {}
  {
    var log := Unloaded(x, id, scanned).log;
    if scanned {
      assert ScanOf(id) in log;
      assert ScanOf(id) in ByManifest(log, id, Unloading);
    }
  }

  lemma CountedPieces(x: System, id: Word, scanned: bool)
    requires ReadyFor(x, id)
    ensures Reconciled(DocFor(id), Unloaded(x, id, scanned).log, id).scanned == Count(scanned)
  {
    var log := Unloaded(x, id, scanned).log;
    OnePiece(x, id, scanned);
    ReconcileMeaning(1, DocFor(id).pieces, ByManifest(log, id, Unloading));
    ScannedIsMembers(log, id, Unloading);
    assert Members(DocFor(id).pieces) == {id};
    assert Scanned(log, id, Unloading) * {id} == if scanned then {id} else {};
  }

  lemma ConfirmStep(v: Env, y: System, id: Word, rec: ReconcileResult, sender: Address, now: nat, signer: Bytes32 -> Bytes)
    requires ProcOf(y, 0) == Signing(id, rec) && rec.scanned < TWO_32
    ensures var call := ConfirmCall(v.crypto, id, rec.scanned, sender, now, signer);
            Step(v, y, Event.Confirm(0, sender, now, signer))
            == Goes(y.(chain := Custody.Step(v.crypto, y.chain, call)), 0, Done)
  {
  }

  lemma Confirms(x: System, id: Word, scanned: bool, rec: ReconcileResult)
    requires PLATFORM in x.chain.platforms && rec.scanned == Count(scanned)
    ensures Step(ENV, At(x, id, MOVING, Signing(id, rec)), Event.Confirm(0, PLATFORM, 0, SignedBy))
            == At(x, id, Arrived(scanned), Done)
  {
    var y := At(x, id, MOVING, Signing(id, rec));
    SigRecovers(Custody.DeliveryDigest(ENV.crypto, id, Count(scanned)));
    ReceiverSigns(ENV.crypto, y.chain, id, scanned);
    Overwrites(x, id, MOVING, Arrived(scanned), ConfirmCall(ENV.crypto, id, rec.scanned, PLATFORM, 0, SignedBy), Signing(id, rec));
    ConfirmStep(ENV, y, id, rec, PLATFORM, 0, SignedBy);
    GoesOn(x, id, Arrived(scanned), Signing(id, rec), Done);
  }

  lemma Begins(x: System, id: Word)
    requires id in x.docs
    ensures Step(ENV, At(x, id, MOVING, Done), BeginConfirm(0, id))
            == At(x, id, MOVING, Signing(id, Reconciled(x.docs[id], x.log, id)))
  {
    var next := Signing(id, Reconciled(x.docs[id], x.log, id));
    assert x.procs[0 := Done][0 := next] == x.procs[0 := next];
  }

  /** A manifest of one piece is anchored, stored and signed; the piece arrives or does not; the
      receiver confirms what was scanned. */
  lemma Delivery(es: seq<Event>, x: System, id: Word, scanned: bool) returns (more: seq<Event>)
    requires Reached(es, x) && ReadyFor(x, id)
    ensures Reached(more, At(Unloaded(Stored(x, id), id, scanned), id, Arrived(scanned), Done))
  {
    var z := Stored(x, id);
    Anchors(x, id);
    Then(es, x, AnchorEvent(id), At(x, id, CREATED, Anchored(id, DocFor(id))));
    more := es + [AnchorEvent(id)];
    Stores(x, id);
    Then(more, At(x, id, CREATED, Anchored(id, DocFor(id))), StoreDoc(0), At(z, id, CREATED, Done));
    more := more + [StoreDoc(0)];
    more := SignedBoth(more, z, id);
    more := UnloadedOne(more, z, id, scanned);
    CountedPieces(x, id, scanned);
    var y := Unloaded(z, id, scanned);
    var rec := Reconciled(DocFor(id), y.log, id);
    Begins(y, id);
    Then(more, At(y, id, MOVING, Done), BeginConfirm(0, id), At(y, id, MOVING, Signing(id, rec)));
    more := more + [BeginConfirm(0, id)];
    Confirms(y, id, scanned, rec);
    Then(more, At(y, id, MOVING, Signing(id, rec)), Event.Confirm(0, PLATFORM, 0, SignedBy),
         At(y, id, Arrived(scanned), Done));
    more := more + [Event.Confirm(0, PLATFORM, 0, SignedBy)];
  }

  lemma SignedBoth(es: seq<Event>, z: System, id: Word) returns (more: seq<Event>)
    requires PLATFORM in z.chain.platforms && Reached(es, At(z, id, CREATED, Done))
    ensures Reached(more, At(z, id, MOVING, Done))
  {
    LoaderStep(z, id);
    Then(es, At(z, id, CREATED, Done), OnChain(LoaderCall(id)), At(z, id, LOADER_SIGNED, Done));
    more := es + [OnChain(LoaderCall(id))];
    DriverStep(z, id);
    Then(more, At(z, id, LOADER_SIGNED, Done), OnChain(DriverCall(id)), At(z, id, MOVING, Done));
    more := more + [OnChain(DriverCall(id))];
  }

  lemma LoaderStep(z: System, id: Word)
    requires PLATFORM in z.chain.platforms
    ensures Step(ENV, At(z, id, CREATED, Done), OnChain(LoaderCall(id))) == At(z, id, LOADER_SIGNED, Done)
  {
    SigRecovers(Custody.LoadingDigest(ENV.crypto, id));
    LoaderSigns(ENV.crypto, At(z, id, CREATED, Done).chain, id);
    Overwrites(z, id, CREATED, LOADER_SIGNED, LoaderCall(id), Done);
  }

  lemma DriverStep(z: System, id: Word)
    requires PLATFORM in z.chain.platforms
    ensures Step(ENV, At(z, id, LOADER_SIGNED, Done), OnChain(DriverCall(id))) == At(z, id, MOVING, Done)
  {
    SigRecovers(Custody.LoadingDigest(ENV.crypto, id));
    DriverSigns(ENV.crypto, At(z, id, LOADER_SIGNED, Done).chain, id);
    Overwrites(z, id, LOADER_SIGNED, MOVING, DriverCall(id), Done);
  }

  lemma UnloadedOne(es: seq<Event>, z: System, id: Word, scanned: bool) returns (more: seq<Event>)
    requires Reached(es, At(z, id, MOVING, Done))
    ensures Reached(more, At(Unloaded(z, id, scanned), id, MOVING, Done))
  {
    more := es;
    if scanned {
      Then(es, At(z, id, MOVING, Done), Scan(ScanOf(id)),
           At(Unloaded(z, id, true), id, MOVING, Done));
      more := es + [Scan(ScanOf(id))];
    }
  }

  // ---------------------------------------------------------------- the whole run

  const GOOD: Word := 1
  const LOST: Word := 2

  const COLLECTED := Payment(LOST, 100, Pending, Held, 0)

  /** A booking's payment is opened and captured. */
  lemma Collected(es: seq<Event>, x: System) returns (more: seq<Event>)
    requires Reached(es, x) && x.rows == []
    ensures Reached(more, x.(rows := [COLLECTED.(status := Paid)]))
  {
    var open := CreateCollection({LOST}, LOST, 100);
    var notice := GatewayBody(Captured, Some(0));
    var y := x.(rows := [COLLECTED]);
    Then(es, x, open, y);
    assert Settle([COLLECTED], notice) == [COLLECTED.(status := Paid)];
    Then(es + [open], y, Gateway(notice), y.(rows := [COLLECTED.(status := Paid)]));
    more := es + [open] + [Gateway(notice)];
  }

  function Opened(): System {
    Genesis(PLATFORM).(chain := Custody.Genesis(PLATFORM).(platforms := {PLATFORM}))
  }

  lemma Opens() returns (es: seq<Event>)
    ensures Reached(es, Opened()) && ReadyFor(Opened(), GOOD)
  {
    var admit := OnChain(Custody.Call(PLATFORM, 0, Custody.SetPlatform(PLATFORM, true)));
    assert Reached([], Genesis(PLATFORM));
    Then([], Genesis(PLATFORM), admit, Opened());
    es := [] + [admit];
  }

  function AfterGood(): System {
    At(Unloaded(Stored(Opened(), GOOD), GOOD, true), GOOD, Arrived(true), Done)
  }

  function AfterBoth(): System {
    At(Unloaded(Stored(AfterGood(), LOST), LOST, false), LOST, Arrived(false), Done)
  }

  lemma BothDeliveries() returns (es: seq<Event>)
    ensures Reached(es, AfterBoth().(rows := [COLLECTED.(status := Paid)]))
  {
    es := Opens();
    es := Delivery(es, Opened(), GOOD, true);
    es := Delivery(es, AfterGood(), LOST, false);
    es := Collected(es, AfterBoth());
  }

  /** One manifest is delivered in full and another arrives short, each step as it should be.
      Then whoever holds the internal secret signs a body with the first manifest's id and the
      second one's booking, and the frozen payment of the short delivery is released. */
  lemma ForgedPayoutIsReachable() returns (es: seq<Event>, forged: seq<Event>)
    ensures HonestRun(ENV, Genesis(PLATFORM), es)
    ensures forged == [Webhook(0, ENV.internalMac(Body(GOOD, LOST, 0)), Body(GOOD, LOST, 0)), PayOut(0)]
    ensures var y := Run(ENV, Genesis(PLATFORM), es + forged);
            && LOST in y.docs && y.docs[LOST].bookingId == LOST
            && LOST in y.chain.manifests && y.chain.manifests[LOST].status == Custody.Short
            && y.rows == [COLLECTED.(status := Paid, payout := Released)] && !AllSettled(y)
  {
    es := BothDeliveries();
    var body := Body(GOOD, LOST, 0);
    var x := AfterBoth().(rows := [COLLECTED.(status := Paid)]);
    forged := [Webhook(0, ENV.internalMac(body), body), PayOut(0)];
    GenesisIsSafe(PLATFORM);
    RunKeepsSafe(ENV, Genesis(PLATFORM), es);
    ForgedBodyPaysShort(ENV, x, 0, GOOD, LOST, 0);
    PaidOutRows(ENV, x, 0, body);
    RunTwo(Genesis(PLATFORM), es, forged[0], forged[1]);
    assert es + forged == es + [forged[0], forged[1]];
  }

  lemma RunTwo(x: System, es: seq<Event>, a: Event, b: Event)
    ensures Run(ENV, x, es + [a, b]) == Step(ENV, Step(ENV, Run(ENV, x, es), a), b)
  {
    var longer := es + [a, b];
    assert longer[..|longer| - 1] == es + [a];
    assert (es + [a])[..|es|] == es;
  }
}
