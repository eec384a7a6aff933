/**
 * CustodyManifest: loader and driver co-sign a piece count, the receiver signs the count
 * that arrived. The contract as a state machine on values, what every run keeps, which
 * signatures stand behind each flag, and the contract object itself.
 */
module Custody {
  import opened Wrappers
  import opened ByteStrings
  import opened Telemetry

  datatype Status = Created | InCustody | Delivered | Short | Disputed

  /** A stored manifest. An id without one has the contract's status None. */
  datatype Manifest = Manifest(
    tripId: Word, pieceCount: UInt32, deliveredCount: UInt32,
    loader: Address, driver: Address, receiver: Address,
    loaderSigned: bool, driverSigned: bool, receiverSigned: bool,
    createdAt: UInt64, custodyStartAt: UInt64, deliveredAt: UInt64,
    status: Status)

  datatype Error =
    | NotOwner | NotPlatform | AlreadyExists | DoesNotExist | WrongStatus
    | ZeroAddress | ZeroCount | BadSignature | CountExceedsManifest

  datatype State = State(owner: Address, platforms: set<Address>, manifests: map<Word, Manifest>)

  datatype Op =
    | TransferOwnership(newOwner: Address)
    | SetPlatform(platform: Address, allowed: bool)
    | CreateManifest(id: Word, tripId: Word, pieceCount: UInt32, loader: Address, driver: Address, receiver: Address)
    | SubmitLoaderSignature(id: Word, sig: Bytes)
    | SubmitDriverSignature(id: Word, sig: Bytes)
    | ConfirmDelivery(id: Word, deliveredCount: UInt32, sig: Bytes)
    | MarkDisputed(id: Word)

  datatype Call = Call(sender: Address, now: nat, op: Op)

  // ---------------------------------------------------------------- signatures

  /** The cryptography and the deployment the contract is bound to. */
  datatype Crypto = Crypto(
    keccak: Hash, ecrecover: (Bytes32, Byte, Bytes32, Bytes32) -> Address, chainId: Word, self: Address)

  // "\x19Ethereum Signed Message:\n32" (EIP-191, version 0x45)
  const ETH_PREFIX: Bytes := [
    0x19, 69, 116, 104, 101, 114, 101, 117, 109, 32, 83, 105, 103, 110, 101, 100, 32,
    77, 101, 115, 115, 97, 103, 101, 58, 10, 51, 50]

  // "DTD_LOADING" and "DTD_DELIVERY"
  const LOADING_TAG: Bytes := [68, 84, 68, 95, 76, 79, 65, 68, 73, 78, 71]
  const DELIVERY_TAG: Bytes := [68, 84, 68, 95, 68, 69, 76, 73, 86, 69, 82, 89]

  function AddressBytes(a: Address): (b: Bytes)
    ensures |b| == 20
  {
    Pow256Twenty();
    ToBytes(a, 20)
  }

  function UInt32Bytes(n: UInt32): (b: Bytes)
    ensures |b| == 4
  {
    Pow256Values();
    ToBytes(n, 4)
  }

  function LoadingPreimage(c: Crypto, id: Word): (b: Bytes)
    ensures |b| == 95
  {
    LOADING_TAG + WordBytes(c.chainId) + AddressBytes(c.self) + WordBytes(id)
  }

  function DeliveryPreimage(c: Crypto, id: Word, count: UInt32): (b: Bytes)
    ensures |b| == 100
  {
    DELIVERY_TAG + WordBytes(c.chainId) + AddressBytes(c.self) + WordBytes(id) + UInt32Bytes(count)
  }

  function LoadingDigest(c: Crypto, id: Word): Bytes32 {
    c.keccak(LoadingPreimage(c, id))
  }

  function DeliveryDigest(c: Crypto, id: Word, count: UInt32): Bytes32 {
    c.keccak(DeliveryPreimage(c, id, count))
  }

  /** The recovered signer, or None where the contract reverts with BadSignature. */
  function Recover(c: Crypto, digest: Bytes32, sig: Bytes): Option<Address> {
    if |sig| != 65 then None
    else
      var v := if sig[64] < 27 then sig[64] + 27 else sig[64];
      var signer := c.ecrecover(c.keccak(ETH_PREFIX + digest), v, sig[..32], sig[32..64]);
      if signer == ZERO_ADDRESS then None else Some(signer)
  }

  lemma AddressBytesInjective(a: Address, b: Address)
    requires AddressBytes(a) == AddressBytes(b)
    ensures a == b
  {
    Pow256Twenty();
    ToBytesInjective(a, b, 20);
  }

  lemma UInt32BytesInjective(m: UInt32, n: UInt32)
    requires UInt32Bytes(m) == UInt32Bytes(n)
    ensures m == n
  {
    Pow256Values();
    ToBytesInjective(m, n, 4);
  }

  /** A loading signature is good for one chain, one contract and one manifest only: the
      preimages differ as soon as any of the three does. */
  lemma LoadingPreimageBinds(c: Crypto, d: Crypto, id: Word, id': Word)
    requires LoadingPreimage(c, id) == LoadingPreimage(d, id')
    ensures c.chainId == d.chainId && c.self == d.self && id == id'
  {
    var x, y := LoadingPreimage(c, id), LoadingPreimage(d, id');
    assert WordBytes(c.chainId) == x[11..43] == y[11..43] == WordBytes(d.chainId);
    assert AddressBytes(c.self) == x[43..63] == y[43..63] == AddressBytes(d.self);
    assert WordBytes(id) == x[63..95] == y[63..95] == WordBytes(id');
    WordBytesInjective(c.chainId, d.chainId);
    AddressBytesInjective(c.self, d.self);
    WordBytesInjective(id, id');
  }

  lemma DeliveryPreimageBinds(c: Crypto, d: Crypto, id: Word, id': Word, n: UInt32, n': UInt32)
    requires DeliveryPreimage(c, id, n) == DeliveryPreimage(d, id', n')
    ensures c.chainId == d.chainId && c.self == d.self && id == id' && n == n'
  {
    var x, y := DeliveryPreimage(c, id, n), DeliveryPreimage(d, id', n');
    assert WordBytes(c.chainId) == x[12..44] == y[12..44] == WordBytes(d.chainId);
    assert AddressBytes(c.self) == x[44..64] == y[44..64] == AddressBytes(d.self);
    assert WordBytes(id) == x[64..96] == y[64..96] == WordBytes(id');
    assert UInt32Bytes(n) == x[96..100] == y[96..100] == UInt32Bytes(n');
    WordBytesInjective(c.chainId, d.chainId);
    AddressBytesInjective(c.self, d.self);
    WordBytesInjective(id, id');
    UInt32BytesInjective(n, n');
  }

  /** One digest serving two purposes, two deployments, two manifests or two counts is a
      hash collision between the two preimages returned. */
  lemma SharedDigestIsCollision(c: Crypto, d: Crypto, id: Word, id': Word, n: UInt32, n': UInt32)
    requires c.keccak == d.keccak
    ensures LoadingDigest(c, id) == DeliveryDigest(d, id', n) ==>
              && LoadingPreimage(c, id) != DeliveryPreimage(d, id', n)
              && c.keccak(LoadingPreimage(c, id)) == c.keccak(DeliveryPreimage(d, id', n))
    ensures LoadingDigest(c, id) == LoadingDigest(d, id') ==>
              || (c.chainId == d.chainId && c.self == d.self && id == id')
              || (LoadingPreimage(c, id) != LoadingPreimage(d, id')
                  && c.keccak(LoadingPreimage(c, id)) == c.keccak(LoadingPreimage(d, id')))
    ensures DeliveryDigest(c, id, n) == DeliveryDigest(d, id', n') ==>
              || (c.chainId == d.chainId && c.self == d.self && id == id' && n == n')
              || (DeliveryPreimage(c, id, n) != DeliveryPreimage(d, id', n')
                  && c.keccak(DeliveryPreimage(c, id, n)) == c.keccak(DeliveryPreimage(d, id', n')))
  {
    if LoadingPreimage(c, id) == LoadingPreimage(d, id') {
      LoadingPreimageBinds(c, d, id, id');
    }
    if DeliveryPreimage(c, id, n) == DeliveryPreimage(d, id', n') {
      DeliveryPreimageBinds(c, d, id, id', n, n');
    }
  }

  // ---------------------------------------------------------------- transitions

  /** Custody starts once both loading signatures are in. */
  function MaybeStartCustody(m: Manifest, now: nat): Manifest {
    if m.loaderSigned && m.driverSigned then m.(status := InCustody, custodyStartAt := now % TWO_64) else m
  }

  function Create(s: State, id: Word, tripId: Word, pieceCount: UInt32,
                  loader: Address, driver: Address, receiver: Address, now: nat): Result<Manifest, Error> {
    if id in s.manifests then Err(AlreadyExists)
    else if pieceCount == 0 then Err(ZeroCount)
    else if loader == ZERO_ADDRESS || driver == ZERO_ADDRESS || receiver == ZERO_ADDRESS then Err(ZeroAddress)
    else Ok(Manifest(tripId, pieceCount, 0, loader, driver, receiver, false, false, false,
                     now % TWO_64, 0, 0, Created))
  }

  function Sign(c: Crypto, s: State, id: Word, sig: Bytes, asLoader: bool, now: nat): Result<Manifest, Error> {
    if id !in s.manifests || s.manifests[id].status != Created then Err(WrongStatus)
    else
      var m := s.manifests[id];
      if Recover(c, LoadingDigest(c, id), sig) != Some(if asLoader then m.loader else m.driver) then Err(BadSignature)
      else Ok(MaybeStartCustody(if asLoader then m.(loaderSigned := true) else m.(driverSigned := true), now))
  }

  function Confirm(c: Crypto, s: State, id: Word, count: UInt32, sig: Bytes, now: nat): Result<Manifest, Error> {
    if id !in s.manifests || s.manifests[id].status != InCustody then Err(WrongStatus)
    else
      var m := s.manifests[id];
      if count > m.pieceCount then Err(CountExceedsManifest)
      else if Recover(c, DeliveryDigest(c, id, count), sig) != Some(m.receiver) then Err(BadSignature)
      else Ok(m.(receiverSigned := true, deliveredCount := count, deliveredAt := now % TWO_64,
                 status := if count == m.pieceCount then Delivered else Short))
  }

  function Dispute(s: State, id: Word): Result<Manifest, Error> {
    if id !in s.manifests then Err(DoesNotExist) else Ok(s.manifests[id].(status := Disputed))
  }

  predicate IsAdmin(op: Op) {
    op.TransferOwnership? || op.SetPlatform?
  }

  /** What a platform call writes to its manifest. */
  function Written(c: Crypto, s: State, op: Op, now: nat): Result<Manifest, Error>
    requires !IsAdmin(op)
  {
    match op
    case CreateManifest(id, tripId, n, l, d, r) => Create(s, id, tripId, n, l, d, r, now)
    case SubmitLoaderSignature(id, sig) => Sign(c, s, id, sig, true, now)
    case SubmitDriverSignature(id, sig) => Sign(c, s, id, sig, false, now)
    case ConfirmDelivery(id, count, sig) => Confirm(c, s, id, count, sig, now)
    case MarkDisputed(id) => Dispute(s, id)
  }

  function Apply(c: Crypto, s: State, call: Call): Result<State, Error> {
    match call.op
    case TransferOwnership(o) =>
      if call.sender != s.owner then Err(NotOwner) else Ok(s.(owner := o))
    case SetPlatform(p, allowed) =>
      if call.sender != s.owner then Err(NotOwner)
      else Ok(s.(platforms := if allowed then s.platforms + {p} else s.platforms - {p}))
    case _ =>
      if call.sender !in s.platforms then Err(NotPlatform)
      else
        match Written(c, s, call.op, call.now)
        case Err(e) => Err(e)
        case Ok(m) => Ok(s.(manifests := s.manifests[call.op.id := m]))
  }

  function Step(c: Crypto, s: State, call: Call): State {
    var r := Apply(c, s, call);
    if r.Ok? then r.value else s
  }

  function Run(c: Crypto, s: State, calls: seq<Call>): State {
    if |calls| == 0 then s else Step(c, Run(c, s, calls[..|calls| - 1]), calls[|calls| - 1])
  }

  function Genesis(deployer: Address): State {
    State(deployer, {}, map[])
  }

  /** The money condition. */
  predicate Releasable(s: State, id: Word) {
    id in s.manifests && s.manifests[id].status == Delivered
    && s.manifests[id].deliveredCount == s.manifests[id].pieceCount
  }

  // ---------------------------------------------------------------- invariants

  /** What the flags and counts say at each status. */
  predicate Consistent(m: Manifest) {
    && m.pieceCount > 0 && m.deliveredCount <= m.pieceCount
    && m.loader != ZERO_ADDRESS && m.driver != ZERO_ADDRESS && m.receiver != ZERO_ADDRESS
    && (m.receiverSigned ==> m.loaderSigned && m.driverSigned)
    && (!m.receiverSigned ==> m.deliveredCount == 0)
    && match m.status {
      case Created => !(m.loaderSigned && m.driverSigned)
      case InCustody => m.loaderSigned && m.driverSigned && !m.receiverSigned
      case Delivered => m.receiverSigned && m.deliveredCount == m.pieceCount
      case Short => m.receiverSigned && m.deliveredCount < m.pieceCount
      case Disputed => true
    }
  }

  ghost predicate AllConsistent(s: State) {
    forall id :: id in s.manifests ==> Consistent(s.manifests[id])
  }

  /** How a manifest may change between two moments of one run. */
  predicate Follows(m: Manifest, m': Manifest) {
    && m'.tripId == m.tripId && m'.pieceCount == m.pieceCount && m'.createdAt == m.createdAt
    && m'.loader == m.loader && m'.driver == m.driver && m'.receiver == m.receiver
    && (m.loaderSigned ==> m'.loaderSigned) && (m.driverSigned ==> m'.driverSigned)
    && (m.receiverSigned ==> m'.receiverSigned && m'.deliveredCount == m.deliveredCount && m'.deliveredAt == m.deliveredAt)
    && (m.status != Created ==> m'.custodyStartAt == m.custodyStartAt)
    && match m.status {
      case Created => true
      case InCustody => m'.status != Created
      case Delivered => m'.status == Delivered || m'.status == Disputed
      case Short => m'.status == Short || m'.status == Disputed
      case Disputed => m' == m
    }
  }

  ghost predicate Evolved(s: State, s': State) {
    forall id :: id in s.manifests ==> id in s'.manifests && Follows(s.manifests[id], s'.manifests[id])
  }

  lemma WriteKeepsConsistent(c: Crypto, s: State, op: Op, now: nat)
    requires AllConsistent(s) && !IsAdmin(op) && Written(c, s, op, now).Ok?
    ensures Consistent(Written(c, s, op, now).value)
    ensures op.id in s.manifests ==> Follows(s.manifests[op.id], Written(c, s, op, now).value)
  {
    if op.id in s.manifests {
      assert Consistent(s.manifests[op.id]);
    }
  }

  lemma StepKeepsConsistent(c: Crypto, s: State, call: Call)
    requires AllConsistent(s)
    ensures AllConsistent(Step(c, s, call))
    ensures Evolved(s, Step(c, s, call))
  {
    if !IsAdmin(call.op) && Written(c, s, call.op, call.now).Ok? {
      WriteKeepsConsistent(c, s, call.op, call.now);
    }
  }

  lemma FollowsTransitive(m: Manifest, m': Manifest, m'': Manifest)
    requires Follows(m, m') && Follows(m', m'')
    ensures Follows(m, m'')
  {
  }

  /** Over every run: flags match statuses, parties and counts never change, signed counts
      are final, Delivered and Short lead only to Disputed, and Disputed is absorbing. */
  lemma {:induction false} RunKeepsConsistent(c: Crypto, s: State, calls: seq<Call>)
    requires AllConsistent(s)
    ensures AllConsistent(Run(c, s, calls))
    ensures Evolved(s, Run(c, s, calls))
  {
    if |calls| > 0 {
      var mid := Run(c, s, calls[..|calls| - 1]);
      RunKeepsConsistent(c, s, calls[..|calls| - 1]);
      StepKeepsConsistent(c, mid, calls[|calls| - 1]);
      forall id | id in s.manifests
        ensures id in Run(c, s, calls).manifests && Follows(s.manifests[id], Run(c, s, calls).manifests[id])
      {
        FollowsTransitive(s.manifests[id], mid.manifests[id], Run(c, s, calls).manifests[id]);
      }
    }
  }

  /** Releasability, once lost, never returns. */
  lemma ReleasableLostForever(c: Crypto, s: State, before: seq<Call>, after: seq<Call>, id: Word)
    requires AllConsistent(s) && Releasable(s, id)
    requires !Releasable(Run(c, s, before), id)
    ensures !Releasable(Run(c, Run(c, s, before), after), id)
  {
    RunKeepsConsistent(c, s, before);
    RunKeepsConsistent(c, Run(c, s, before), after);
    assert Follows(s.manifests[id], Run(c, s, before).manifests[id]);
    assert Follows(Run(c, s, before).manifests[id], Run(c, Run(c, s, before), after).manifests[id]);
  }

  // ---------------------------------------------------------------- who signed

  predicate LoaderSignedIn(c: Crypto, call: Call, id: Word, loader: Address) {
    call.op.SubmitLoaderSignature? && call.op.id == id
    && Recover(c, LoadingDigest(c, id), call.op.sig) == Some(loader)
  }

  predicate DriverSignedIn(c: Crypto, call: Call, id: Word, driver: Address) {
    call.op.SubmitDriverSignature? && call.op.id == id
    && Recover(c, LoadingDigest(c, id), call.op.sig) == Some(driver)
  }

  predicate ReceiverSignedIn(c: Crypto, call: Call, id: Word, receiver: Address, count: UInt32) {
    call.op.ConfirmDelivery? && call.op.id == id && call.op.deliveredCount == count
    && Recover(c, DeliveryDigest(c, id, count), call.op.sig) == Some(receiver)
  }

  /** Every flag of a manifest is backed by a valid signature submitted in the run. */
  ghost predicate BackedBy(c: Crypto, calls: seq<Call>, id: Word, m: Manifest) {
    && (m.loaderSigned ==> exists call :: call in calls && LoaderSignedIn(c, call, id, m.loader))
    && (m.driverSigned ==> exists call :: call in calls && DriverSignedIn(c, call, id, m.driver))
    && (m.receiverSigned ==>
          exists call :: call in calls && ReceiverSignedIn(c, call, id, m.receiver, m.deliveredCount))
  }

  lemma BackedByMore(c: Crypto, calls: seq<Call>, last: Call, id: Word, m: Manifest)
    requires BackedBy(c, calls, id, m)
    ensures BackedBy(c, calls + [last], id, m)
  {
    if m.loaderSigned {
      var call :| call in calls && LoaderSignedIn(c, call, id, m.loader);
      assert call in calls + [last];
    }
    if m.driverSigned {
      var call :| call in calls && DriverSignedIn(c, call, id, m.driver);
      assert call in calls + [last];
    }
    if m.receiverSigned {
      var call :| call in calls && ReceiverSignedIn(c, call, id, m.receiver, m.deliveredCount);
      assert call in calls + [last];
    }
  }

  lemma WriteIsBacked(c: Crypto, s: State, calls: seq<Call>, call: Call)
    requires AllConsistent(s) && !IsAdmin(call.op) && Written(c, s, call.op, call.now).Ok?
    requires call.op.id in s.manifests ==> BackedBy(c, calls, call.op.id, s.manifests[call.op.id])
    ensures BackedBy(c, calls + [call], call.op.id, Written(c, s, call.op, call.now).value)
  {
    assert call in calls + [call];
    if call.op.id in s.manifests {
      BackedByMore(c, calls, call, call.op.id, s.manifests[call.op.id]);
    }
  }

  /** No manifest is ever marked signed, delivered or short without the signatures. */
  lemma {:induction false} SignaturesOnRecord(c: Crypto, deployer: Address, calls: seq<Call>, id: Word)
    requires id in Run(c, Genesis(deployer), calls).manifests
    ensures BackedBy(c, calls, id, Run(c, Genesis(deployer), calls).manifests[id])
  {
    var init, last := calls[..|calls| - 1], calls[|calls| - 1];
    var before := Run(c, Genesis(deployer), init);
    assert calls == init + [last];
    RunKeepsConsistent(c, Genesis(deployer), init);
    if id in before.manifests {
      SignaturesOnRecord(c, deployer, init, id);
      BackedByMore(c, init, last, id, before.manifests[id]);
    }
    if Apply(c, before, last).Ok? && !IsAdmin(last.op) && last.op.id == id {
      WriteIsBacked(c, before, init, last);
    }
  }

  // ---------------------------------------------------------------- contract

  class CustodyManifest {
    const crypto: Crypto
    var owner: Address
    var platforms: set<Address>
    var manifests: map<Word, Manifest>

    ghost function View(): State
      reads this
    {
      State(owner, platforms, manifests)
    }

    constructor (crypto: Crypto, deployer: Address)
      ensures View() == Genesis(deployer) && this.crypto == crypto
    {
      this.crypto := crypto;
      owner, platforms, manifests := deployer, {}, map[];
    }

    /** The state a revert rolls back to. */
    method Restore(s: State)
      modifies this
      ensures View() == s
    {
      owner, platforms, manifests := s.owner, s.platforms, s.manifests;
    }

    method Snapshot() returns (s: State)
      ensures s == View()
    {
      s := State(owner, platforms, manifests);
    }

    method TransferOwnership(sender: Address, now: nat, newOwner: Address) returns (r: Result<(), Error>)
      modifies this
      ensures Performs(crypto, old(View()), Call(sender, now, Op.TransferOwnership(newOwner)), View(), r)
    {
      if sender != owner { return Err(NotOwner); }
      owner := newOwner;
      return Ok(());
    }

    method SetPlatform(sender: Address, now: nat, platform: Address, allowed: bool) returns (r: Result<(), Error>)
      modifies this
      ensures Performs(crypto, old(View()), Call(sender, now, Op.SetPlatform(platform, allowed)), View(), r)
    {
      if sender != owner { return Err(NotOwner); }
      platforms := if allowed then platforms + {platform} else platforms - {platform};
      return Ok(());
    }

    method CreateManifest(sender: Address, now: nat, id: Word, tripId: Word, pieceCount: UInt32,
                          loader: Address, driver: Address, receiver: Address) returns (r: Result<(), Error>)
      modifies this
      ensures Performs(crypto, old(View()),
                       Call(sender, now, Op.CreateManifest(id, tripId, pieceCount, loader, driver, receiver)), View(), r)
    {
      if sender !in platforms { return Err(NotPlatform); }
      if id in manifests { return Err(AlreadyExists); }
      if pieceCount == 0 { return Err(ZeroCount); }
      if loader == ZERO_ADDRESS || driver == ZERO_ADDRESS || receiver == ZERO_ADDRESS { return Err(ZeroAddress); }
      manifests := manifests[id := Manifest(
        tripId, pieceCount, 0, loader, driver, receiver, false, false, false, now % TWO_64, 0, 0, Created)];
      return Ok(());
    }

    method SubmitLoaderSignature(sender: Address, now: nat, id: Word, sig: Bytes) returns (r: Result<(), Error>)
      modifies this
      ensures Performs(crypto, old(View()), Call(sender, now, Op.SubmitLoaderSignature(id, sig)), View(), r)
    {
      if sender !in platforms { return Err(NotPlatform); }
      if id !in manifests || manifests[id].status != Created { return Err(WrongStatus); }
      if Recover(crypto, LoadingDigest(crypto, id), sig) != Some(manifests[id].loader) { return Err(BadSignature); }
      manifests := manifests[id := MaybeStartCustody(manifests[id].(loaderSigned := true), now)];
      return Ok(());
    }

    method SubmitDriverSignature(sender: Address, now: nat, id: Word, sig: Bytes) returns (r: Result<(), Error>)
      modifies this
      ensures Performs(crypto, old(View()), Call(sender, now, Op.SubmitDriverSignature(id, sig)), View(), r)
    {
      if sender !in platforms { return Err(NotPlatform); }
      if id !in manifests || manifests[id].status != Created { return Err(WrongStatus); }
      if Recover(crypto, LoadingDigest(crypto, id), sig) != Some(manifests[id].driver) { return Err(BadSignature); }
      manifests := manifests[id := MaybeStartCustody(manifests[id].(driverSigned := true), now)];
      return Ok(());
    }

    method ConfirmDelivery(sender: Address, now: nat, id: Word, deliveredCount: UInt32, sig: Bytes)
      returns (r: Result<(), Error>)
      modifies this
      ensures Performs(crypto, old(View()), Call(sender, now, Op.ConfirmDelivery(id, deliveredCount, sig)), View(), r)
    {
      if sender !in platforms { return Err(NotPlatform); }
      if id !in manifests || manifests[id].status != InCustody { return Err(WrongStatus); }
      var m := manifests[id];
      if deliveredCount > m.pieceCount { return Err(CountExceedsManifest); }
      if Recover(crypto, DeliveryDigest(crypto, id, deliveredCount), sig) != Some(m.receiver) {
        return Err(BadSignature);
      }
      m := m.(receiverSigned := true, deliveredCount := deliveredCount, deliveredAt := now % TWO_64);
      m := m.(status := if deliveredCount == m.pieceCount then Delivered else Short);
      manifests := manifests[id := m];
      return Ok(());
    }

    method MarkDisputed(sender: Address, now: nat, id: Word) returns (r: Result<(), Error>)
      modifies this
      ensures Performs(crypto, old(View()), Call(sender, now, Op.MarkDisputed(id)), View(), r)
    {
      if sender !in platforms { return Err(NotPlatform); }
      if id !in manifests { return Err(DoesNotExist); }
      manifests := manifests[id := manifests[id].(status := Disputed)];
      return Ok(());
    }

    /** Dispatches one call. */
    method Execute(call: Call) returns (r: Result<(), Error>)
      modifies this
      ensures Performs(crypto, old(View()), call, View(), r)
    {
      var sender, now := call.sender, call.now;
      match call.op
      case TransferOwnership(o) => r := TransferOwnership(sender, now, o);
      case SetPlatform(p, allowed) => r := SetPlatform(sender, now, p, allowed);
      case CreateManifest(id, t, n, l, d, v) => r := CreateManifest(sender, now, id, t, n, l, d, v);
      case SubmitLoaderSignature(id, sig) => r := SubmitLoaderSignature(sender, now, id, sig);
      case SubmitDriverSignature(id, sig) => r := SubmitDriverSignature(sender, now, id, sig);
      case ConfirmDelivery(id, n, sig) => r := ConfirmDelivery(sender, now, id, n, sig);
      case MarkDisputed(id) => r := MarkDisputed(sender, now, id);
    }

    method IsReleasable(id: Word) returns (ok: bool)
      ensures ok == Releasable(View(), id)
    {
      ok := id in manifests && manifests[id].status == Delivered
            && manifests[id].deliveredCount == manifests[id].pieceCount;
    }
  }

  /** `after` and `r` are the new state and the outcome of `call`. */
  ghost predicate Performs(c: Crypto, before: State, call: Call, after: State, r: Result<(), Error>) {
    && after == Step(c, before, call)
    && (r.Ok? <==> Apply(c, before, call).Ok?)
    && (r.Err? ==> Apply(c, before, call) == Err(r.error))
  }
}
