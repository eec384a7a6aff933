/** ReputationLedger: dual-signed trip attestations, and per-driver totals that count them. */
module Reputation {
  import opened Wrappers
  import opened ByteStrings
  import opened Seqs
  import opened Telemetry
  import opened Custody
  import opened CustodyRights

  datatype Attestation = Attestation(
    driver: Address, shipper: Address, onTime: bool, disputeFree: bool, attestedAt: UInt64)

  datatype Totals = Totals(totalTrips: UInt32, onTimeTrips: UInt32, disputeFreeTrips: UInt32)

  const NO_TRIPS := Totals(0, 0, 0)

  /** Panic is the checked-arithmetic revert of a counter at its maximum. */
  datatype LedgerError = NotLedgerOwner | NotLedgerPlatform | AlreadyAttested | ZeroParty | BadLedgerSignature | Panic

  datatype Ledger = Ledger(
    owner: Address, platforms: set<Address>, attestations: map<Word, Attestation>, totals: map<Address, Totals>)

  datatype LedgerOp =
    | SetOwner(newOwner: Address)
    | SetLedgerPlatform(platform: Address, allowed: bool)
    | Attest(tripId: Word, driver: Address, shipper: Address, onTime: bool, disputeFree: bool,
             driverSig: Bytes, shipperSig: Bytes)

  datatype LedgerCall = LedgerCall(sender: Address, now: nat, op: LedgerOp)

  // "DTD_ATTEST"
  const ATTEST_TAG: Bytes := [68, 84, 68, 95, 65, 84, 84, 69, 83, 84]

  function Flag(b: bool): Byte {
    if b then 1 else 0
  }

  function PartiesPreimage(c: Crypto, tripId: Word, driver: Address, shipper: Address): (b: Bytes)
    ensures |b| == 134
  {
    ATTEST_TAG + WordBytes(c.chainId) + AddressBytes(c.self) + WordBytes(tripId) + AddressBytes(driver) + AddressBytes(shipper)
  }

  function AttestPreimage(c: Crypto, tripId: Word, driver: Address, shipper: Address, onTime: bool, disputeFree: bool): (b: Bytes)
    ensures |b| == 136
  {
    PartiesPreimage(c, tripId, driver, shipper) + [Flag(onTime), Flag(disputeFree)]
  }

  function AttestDigest(c: Crypto, tripId: Word, driver: Address, shipper: Address, onTime: bool, disputeFree: bool): Bytes32 {
    c.keccak(AttestPreimage(c, tripId, driver, shipper, onTime, disputeFree))
  }

  lemma PartiesPreimageBinds(c: Crypto, d: Crypto, t: Word, t': Word, a: Address, a': Address, b: Address, b': Address)
    requires PartiesPreimage(c, t, a, b) == PartiesPreimage(d, t', a', b')
    ensures c.chainId == d.chainId && c.self == d.self && t == t' && a == a' && b == b'
  {
    var x1, y1 := ATTEST_TAG + WordBytes(c.chainId), ATTEST_TAG + WordBytes(d.chainId);
    var x2, y2 := x1 + AddressBytes(c.self), y1 + AddressBytes(d.self);
    var x3, y3 := x2 + WordBytes(t), y2 + WordBytes(t');
    var x4, y4 := x3 + AddressBytes(a), y3 + AddressBytes(a');
    SplitEqual(x4, AddressBytes(b), y4, AddressBytes(b'));
    SplitEqual(x3, AddressBytes(a), y3, AddressBytes(a'));
    SplitEqual(x2, WordBytes(t), y2, WordBytes(t'));
    SplitEqual(x1, AddressBytes(c.self), y1, AddressBytes(d.self));
    SplitEqual(ATTEST_TAG, WordBytes(c.chainId), ATTEST_TAG, WordBytes(d.chainId));
    WordBytesInjective(c.chainId, d.chainId);
    AddressBytesInjective(c.self, d.self);
    WordBytesInjective(t, t');
    AddressBytesInjective(a, a');
    AddressBytesInjective(b, b');
  }

  /** What both parties sign is bound to the chain, the contract, the trip, both parties and
      both outcomes: equal preimages agree on all of them. */
  lemma AttestPreimageBinds(c: Crypto, d: Crypto, t: Word, t': Word, a: Address, a': Address, b: Address, b': Address,
                            on: bool, on': bool, free: bool, free': bool)
    requires AttestPreimage(c, t, a, b, on, free) == AttestPreimage(d, t', a', b', on', free')
    ensures c.chainId == d.chainId && c.self == d.self && t == t' && a == a' && b == b' && on == on' && free == free'
  {
    var flags, flags' := [Flag(on), Flag(free)], [Flag(on'), Flag(free')];
    SplitEqual(PartiesPreimage(c, t, a, b), flags, PartiesPreimage(d, t', a', b'), flags');
    assert flags[0] == flags'[0] && flags[1] == flags'[1];
    PartiesPreimageBinds(c, d, t, t', a, a', b, b');
  }

  // ---------------------------------------------------------------- transitions

  function TotalsOf(s: Ledger, driver: Address): Totals {
    if driver in s.totals then s.totals[driver] else NO_TRIPS
  }

  function Counted(r: Totals, onTime: bool, disputeFree: bool): Option<Totals> {
    var total := r.totalTrips as int + 1;
    var punctual := if onTime then r.onTimeTrips as int + 1 else r.onTimeTrips;
    var peaceful := if disputeFree then r.disputeFreeTrips as int + 1 else r.disputeFreeTrips;
    if total < TWO_32 && punctual < TWO_32 && peaceful < TWO_32 then Some(Totals(total, punctual, peaceful)) else None
  }

  function Attested(c: Crypto, s: Ledger, op: LedgerOp, now: nat): Result<Ledger, LedgerError>
    requires op.Attest?
  {
    var digest := AttestDigest(c, op.tripId, op.driver, op.shipper, op.onTime, op.disputeFree);
    if op.tripId in s.attestations then Err(AlreadyAttested)
    else if op.driver == ZERO_ADDRESS || op.shipper == ZERO_ADDRESS then Err(ZeroParty)
    else if Recover(c, digest, op.driverSig) != Some(op.driver) then Err(BadLedgerSignature)
    else if Recover(c, digest, op.shipperSig) != Some(op.shipper) then Err(BadLedgerSignature)
    else
      match Counted(TotalsOf(s, op.driver), op.onTime, op.disputeFree)
      case None => Err(Panic)
      case Some(r) =>
        Ok(s.(attestations := s.attestations[op.tripId :=
                Attestation(op.driver, op.shipper, op.onTime, op.disputeFree, now % TWO_64)],
              totals := s.totals[op.driver := r]))
  }

  function Apply(c: Crypto, s: Ledger, call: LedgerCall): Result<Ledger, LedgerError> {
    match call.op
    case SetOwner(o) => if call.sender != s.owner then Err(NotLedgerOwner) else Ok(s.(owner := o))
    case SetLedgerPlatform(p, allowed) =>
      if call.sender != s.owner then Err(NotLedgerOwner)
      else Ok(s.(platforms := if allowed then s.platforms + {p} else s.platforms - {p}))
    case Attest(_, _, _, _, _, _, _) =>
      if call.sender !in s.platforms then Err(NotLedgerPlatform) else Attested(c, s, call.op, call.now)
  }

  function Step(c: Crypto, s: Ledger, call: LedgerCall): Ledger {
    var r := Apply(c, s, call);
    if r.Ok? then r.value else s
  }

  function Run(c: Crypto, s: Ledger, calls: seq<LedgerCall>): Ledger {
    if |calls| == 0 then s else Step(c, Run(c, s, calls[..|calls| - 1]), calls[|calls| - 1])
  }

  function Deployed(owner: Address): Ledger {
    Ledger(owner, {}, map[], map[])
  }

  // ---------------------------------------------------------------- totals are cardinalities

  function TripsOf(s: Ledger, driver: Address): set<Word> {
    set t | t in s.attestations && s.attestations[t].driver == driver
  }

  function OnTimeOf(s: Ledger, driver: Address): set<Word> {
    set t | t in s.attestations && s.attestations[t].driver == driver && s.attestations[t].onTime
  }

  function DisputeFreeOf(s: Ledger, driver: Address): set<Word> {
    set t | t in s.attestations && s.attestations[t].driver == driver && s.attestations[t].disputeFree
  }

  /** The stored totals of every driver are the sizes of the matching sets of attestations. */
  ghost predicate TotalsCount(s: Ledger) {
    forall d :: TotalsCountFor(s, d)
  }

  ghost predicate TotalsCountFor(s: Ledger, d: Address) {
    && TotalsOf(s, d).totalTrips == |TripsOf(s, d)|
    && TotalsOf(s, d).onTimeTrips == |OnTimeOf(s, d)|
    && TotalsOf(s, d).disputeFreeTrips == |DisputeFreeOf(s, d)|
  }

  /** One new attestation adds its trip to its driver's sets, and to no others. */
  lemma SetsAfter(s: Ledger, y: Ledger, t: Word, a: Attestation, d: Address)
    requires t !in s.attestations && y.attestations == s.attestations[t := a]
    ensures TripsOf(y, d) == TripsOf(s, d) + (if d == a.driver then {t} else {})
    ensures OnTimeOf(y, d) == OnTimeOf(s, d) + (if d == a.driver && a.onTime then {t} else {})
    ensures DisputeFreeOf(y, d) == DisputeFreeOf(s, d) + (if d == a.driver && a.disputeFree then {t} else {})
    ensures t !in TripsOf(s, d) && t !in OnTimeOf(s, d) && t !in DisputeFreeOf(s, d)
  {
  }

  lemma SizesAfter(s: Ledger, y: Ledger, t: Word, a: Attestation, d: Address)
    requires t !in s.attestations && y.attestations == s.attestations[t := a]
    ensures |TripsOf(y, d)| == |TripsOf(s, d)| + (if d == a.driver then 1 else 0)
    ensures |OnTimeOf(y, d)| == |OnTimeOf(s, d)| + (if d == a.driver && a.onTime then 1 else 0)
    ensures |DisputeFreeOf(y, d)| == |DisputeFreeOf(s, d)| + (if d == a.driver && a.disputeFree then 1 else 0)
  {
    SetsAfter(s, y, t, a, d);
  }

  lemma AttestCounts(c: Crypto, s: Ledger, op: LedgerOp, now: nat, d: Address)
    requires op.Attest? && Attested(c, s, op, now).Ok? && TotalsCountFor(s, d)
    ensures TotalsCountFor(Attested(c, s, op, now).value, d)
  {
    var y := Attested(c, s, op, now).value;
    SizesAfter(s, y, op.tripId, y.attestations[op.tripId], d);
    assert Counted(TotalsOf(s, op.driver), op.onTime, op.disputeFree) == Some(TotalsOf(y, op.driver));
  }

  lemma StepCounts(c: Crypto, s: Ledger, call: LedgerCall)
    requires TotalsCount(s)
    ensures TotalsCount(Step(c, s, call))
  {
    var y := Step(c, s, call);
    forall d ensures TotalsCountFor(y, d) {
      assert TotalsCountFor(s, d);
      if call.op.Attest? && Apply(c, s, call).Ok? {
        AttestCounts(c, s, call.op, call.now, d);
      } else {
        assert TripsOf(y, d) == TripsOf(s, d) && OnTimeOf(y, d) == OnTimeOf(s, d) && DisputeFreeOf(y, d) == DisputeFreeOf(s, d);
      }
    }
  }

  /** After any run, for every driver: the totals count the attestations, on-time and
      dispute-free trips never exceed trips, and an attestation once made is never changed. */
  lemma {:induction false} RunTotalsAreCardinalities(c: Crypto, owner: Address, calls: seq<LedgerCall>, d: Address)
    ensures TotalsCount(Run(c, Deployed(owner), calls))
    ensures var r := TotalsOf(Run(c, Deployed(owner), calls), d);
            r.onTimeTrips <= r.totalTrips && r.disputeFreeTrips <= r.totalTrips
  {
    var s := Run(c, Deployed(owner), calls);
    if |calls| == 0 {
      forall e ensures TotalsCountFor(s, e) {
        assert TripsOf(s, e) == {} && OnTimeOf(s, e) == {} && DisputeFreeOf(s, e) == {};
      }
    } else {
      RunTotalsAreCardinalities(c, owner, calls[..|calls| - 1], d);
      StepCounts(c, Run(c, Deployed(owner), calls[..|calls| - 1]), calls[|calls| - 1]);
    }
    assert TotalsCountFor(s, d);
    Fewer(OnTimeOf(s, d), TripsOf(s, d));
    Fewer(DisputeFreeOf(s, d), TripsOf(s, d));
  }

  lemma {:induction false} Fewer(a: set<Word>, b: set<Word>)
    requires a <= b
    ensures |a| <= |b|
  {
    if x :| x in a {
      Fewer(a - {x}, b - {x});
    }
  }

  /** Everything the contract checks before it counts. */
  predicate Acceptable(c: Crypto, s: Ledger, call: LedgerCall)
    requires call.op.Attest?
  {
    && call.sender in s.platforms && call.op.tripId !in s.attestations
    && call.op.driver != ZERO_ADDRESS && call.op.shipper != ZERO_ADDRESS
    && SignedBoth(c, call, call.op.tripId, Attestation(call.op.driver, call.op.shipper, call.op.onTime, call.op.disputeFree, 0))
  }

  /** An acceptable attestation is recorded, unless it is the driver's 2^32nd: that one reverts. */
  lemma PanicExactly(c: Crypto, s: Ledger, call: LedgerCall)
    requires TotalsCount(s) && call.op.Attest?
    ensures Apply(c, s, call).Ok? <==> Acceptable(c, s, call) && |TripsOf(s, call.op.driver)| < TWO_32 - 1
    ensures Apply(c, s, call) == Err(Panic) <==> Acceptable(c, s, call) && |TripsOf(s, call.op.driver)| == TWO_32 - 1
  {
    assert TotalsCountFor(s, call.op.driver);
    Fewer(OnTimeOf(s, call.op.driver), TripsOf(s, call.op.driver));
    Fewer(DisputeFreeOf(s, call.op.driver), TripsOf(s, call.op.driver));
  }

  lemma {:induction false} AttestationsAreFinal(c: Crypto, s: Ledger, calls: seq<LedgerCall>, t: Word)
    requires t in s.attestations
    ensures t in Run(c, s, calls).attestations && Run(c, s, calls).attestations[t] == s.attestations[t]
  {
    if |calls| > 0 {
      AttestationsAreFinal(c, s, calls[..|calls| - 1], t);
    }
  }

  /** Both parties signed this outcome in this call. */
  predicate SignedBoth(c: Crypto, call: LedgerCall, t: Word, a: Attestation) {
    && call.op.Attest? && call.op.tripId == t
    && var digest := AttestDigest(c, t, a.driver, a.shipper, a.onTime, a.disputeFree);
    && Recover(c, digest, call.op.driverSig) == Some(a.driver)
    && Recover(c, digest, call.op.shipperSig) == Some(a.shipper)
  }

  /** Nothing counts without both signatures: every attestation is backed by a call of the run
      that carried them, over exactly the recorded parties and outcomes. */
  lemma {:induction false} AttestationsAreSigned(c: Crypto, owner: Address, calls: seq<LedgerCall>, t: Word)
    requires t in Run(c, Deployed(owner), calls).attestations
    ensures exists call :: call in calls && SignedBoth(c, call, t, Run(c, Deployed(owner), calls).attestations[t])
  {
    var init, last := calls[..|calls| - 1], calls[|calls| - 1];
    var before := Run(c, Deployed(owner), init);
    assert calls == init + [last];
    if t in before.attestations {
      AttestationsAreSigned(c, owner, init, t);
      var call :| call in init && SignedBoth(c, call, t, before.attestations[t]);
      AttestationsAreFinal(c, before, [last], t);
      assert Run(c, before, [last]) == Step(c, before, last) by {
        assert [last][..0] == [];
      }
      assert call in calls;
    } else {
      assert last in calls && SignedBoth(c, last, t, Run(c, Deployed(owner), calls).attestations[t]);
    }
  }

  // ---------------------------------------------------------------- who attests, and what is signed

  /** An attestation is taken exactly from a platform, for a trip without one, with two real
      parties and both their signatures over this outcome, unless a counter is full; it is then
      recorded as brought. */
  lemma AttestedIff(c: Crypto, s: Ledger, call: LedgerCall)
    requires TotalsCount(s) && call.op.Attest?
    ensures var Attest(t, driver, shipper, onTime, disputeFree, driverSig, shipperSig) := call.op;
            var digest := AttestDigest(c, t, driver, shipper, onTime, disputeFree);
            && (Apply(c, s, call).Ok? <==>
                  && call.sender in s.platforms && t !in s.attestations && driver != 0 && shipper != 0
                  && Recover(c, digest, driverSig) == Some(driver) && Recover(c, digest, shipperSig) == Some(shipper)
                  && |TripsOf(s, driver)| < 0xffff_ffff)
            && (call.sender !in s.platforms ==> Apply(c, s, call) == Err(NotLedgerPlatform))
            && (Apply(c, s, call).Ok? ==>
                  && t in Step(c, s, call).attestations
                  && Step(c, s, call).attestations[t]
                     == Attestation(driver, shipper, onTime, disputeFree, call.now % 0x1_0000_0000_0000_0000))
  {
    PanicExactly(c, s, call);
  }

  /** Behind every attestation stands a call by a platform of that moment. */
  lemma {:induction false} EveryAttestationIsAPlatforms(c: Crypto, s: Ledger, calls: seq<LedgerCall>, t: Word) returns (k: nat)
    requires t !in s.attestations && t in Run(c, s, calls).attestations
    ensures k < |calls| && calls[k].sender in Run(c, s, calls[..k]).platforms
    ensures calls[k].op.Attest? && calls[k].op.tripId == t
  {
    var n := |calls| - 1;
    if t in Run(c, s, calls[..n]).attestations {
      k := EveryAttestationIsAPlatforms(c, s, calls[..n], t);
      assert calls[..n][..k] == calls[..k];
    } else {
      k := n;
    }
  }

  /** Behind every change of the owner or the platforms stands a call of the owner then. */
  lemma {:induction false} EveryAdminChangeIsTheOwners(c: Crypto, s: Ledger, calls: seq<LedgerCall>) returns (k: nat)
    requires Run(c, s, calls).owner != s.owner || Run(c, s, calls).platforms != s.platforms
    ensures k < |calls| && calls[k].sender == Run(c, s, calls[..k]).owner
    ensures calls[k].op.SetOwner? || calls[k].op.SetLedgerPlatform?
  {
    var n := |calls| - 1;
    var before := Run(c, s, calls[..n]);
    if before.owner == Run(c, s, calls).owner && before.platforms == Run(c, s, calls).platforms {
      k := EveryAdminChangeIsTheOwners(c, s, calls[..n]);
      assert calls[..n][..k] == calls[..k];
    } else {
      k := n;
    }
  }

  /** What both parties sign, byte by byte. */
  lemma AttestLayout(c: Crypto, t: Word, driver: Address, shipper: Address, onTime: bool, disputeFree: bool)
    ensures var b := AttestPreimage(c, t, driver, shipper, onTime, disputeFree);
            && |b| == 136 && Spells(b[..10], "DTD_ATTEST")
            && BigEndian(b[10..42]) == c.chainId && BigEndian(b[42..62]) == c.self && BigEndian(b[62..94]) == t
            && BigEndian(b[94..114]) == driver && BigEndian(b[114..134]) == shipper
            && b[134] == (if onTime then 1 else 0) && b[135] == (if disputeFree then 1 else 0)
  {
    var front := ATTEST_TAG + WordBytes(c.chainId) + AddressBytes(c.self) + WordBytes(t);
    var parties := AddressBytes(driver) + AddressBytes(shipper) + [Flag(onTime), Flag(disputeFree)];
    Regroup(front, AddressBytes(driver), AddressBytes(shipper), [Flag(onTime), Flag(disputeFree)]);
    FourParts(ATTEST_TAG, WordBytes(c.chainId), AddressBytes(c.self), WordBytes(t));
    SliceOfFront(front, parties, 0, 10);
    SliceOfFront(front, parties, 10, 42);
    SliceOfFront(front, parties, 42, 62);
    SliceOfFront(front, parties, 62, 94);
    AttestEnd(front, AddressBytes(driver), AddressBytes(shipper), Flag(onTime), Flag(disputeFree));
    WordReads(c.chainId);
    AddressReads(c.self);
    WordReads(t);
    AddressReads(driver);
    AddressReads(shipper);
  }

  lemma Regroup(a: Bytes, b: Bytes, c: Bytes, d: Bytes)
    ensures a + b + c + d == a + (b + c + d)
  {
  }

  lemma AttestEnd(front: Bytes, driver: Bytes, shipper: Bytes, onTime: Byte, disputeFree: Byte)
    requires |front| == 94 && |driver| == |shipper| == 20
    ensures var b := front + (driver + shipper + [onTime, disputeFree]);
            b[94..114] == driver && b[114..134] == shipper && b[134] == onTime && b[135] == disputeFree
  {
  }

  // ---------------------------------------------------------------- contract

  class ReputationLedger {
    const crypto: Crypto
    var owner: Address
    var platforms: set<Address>
    var attestations: map<Word, Attestation>
    var totals: map<Address, Totals>

    ghost function View(): Ledger
      reads this
    {
      Ledger(owner, platforms, attestations, totals)
    }

    constructor (crypto: Crypto, deployer: Address)
      ensures View() == Deployed(deployer) && this.crypto == crypto
    {
      this.crypto := crypto;
      owner, platforms, attestations, totals := deployer, {}, map[], map[];
    }

    method TransferOwnership(sender: Address, now: nat, newOwner: Address) returns (r: Result<(), LedgerError>)
      modifies this
      ensures Does(crypto, old(View()), LedgerCall(sender, now, SetOwner(newOwner)), View(), r)
    {
      if sender != owner { return Err(NotLedgerOwner); }
      owner := newOwner;
      return Ok(());
    }

    method SetPlatform(sender: Address, now: nat, platform: Address, allowed: bool) returns (r: Result<(), LedgerError>)
      modifies this
      ensures Does(crypto, old(View()), LedgerCall(sender, now, SetLedgerPlatform(platform, allowed)), View(), r)
    {
      if sender != owner { return Err(NotLedgerOwner); }
      platforms := if allowed then platforms + {platform} else platforms - {platform};
      return Ok(());
    }

    /** The three checked increments. */
    method Count(rep: Totals, onTime: bool, disputeFree: bool) returns (r: Option<Totals>)
      ensures r == Counted(rep, onTime, disputeFree)
    {
      var next := rep;
      if next.totalTrips as int + 1 >= TWO_32 { return None; }
      next := next.(totalTrips := next.totalTrips + 1);
      if onTime {
        if next.onTimeTrips as int + 1 >= TWO_32 { return None; }
        next := next.(onTimeTrips := next.onTimeTrips + 1);
      }
      if disputeFree {
        if next.disputeFreeTrips as int + 1 >= TWO_32 { return None; }
        next := next.(disputeFreeTrips := next.disputeFreeTrips + 1);
      }
      return Some(next);
    }

    method Attest(sender: Address, now: nat, tripId: Word, driver: Address, shipper: Address,
                  onTime: bool, disputeFree: bool, driverSig: Bytes, shipperSig: Bytes)
      returns (r: Result<(), LedgerError>)
      modifies this
      ensures Does(crypto, old(View()),
                   LedgerCall(sender, now, LedgerOp.Attest(tripId, driver, shipper, onTime, disputeFree, driverSig, shipperSig)),
                   View(), r)
    {
      if sender !in platforms { return Err(NotLedgerPlatform); }
      if tripId in attestations { return Err(AlreadyAttested); }
      if driver == ZERO_ADDRESS || shipper == ZERO_ADDRESS { return Err(ZeroParty); }
      var digest := AttestDigest(crypto, tripId, driver, shipper, onTime, disputeFree);
      if Recover(crypto, digest, driverSig) != Some(driver) { return Err(BadLedgerSignature); }
      if Recover(crypto, digest, shipperSig) != Some(shipper) { return Err(BadLedgerSignature); }
      var rep := Count(if driver in totals then totals[driver] else NO_TRIPS, onTime, disputeFree);
      if rep.None? { return Err(Panic); }
      attestations := attestations[tripId := Attestation(driver, shipper, onTime, disputeFree, now % TWO_64)];
      totals := totals[driver := rep.value];
      return Ok(());
    }
  }

  ghost predicate Does(c: Crypto, before: Ledger, call: LedgerCall, after: Ledger, r: Result<(), LedgerError>) {
    && after == Step(c, before, call)
    && (r.Ok? <==> Apply(c, before, call).Ok?)
    && (r.Err? ==> Apply(c, before, call) == Err(r.error))
  }
}
