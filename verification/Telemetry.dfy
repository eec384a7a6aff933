/**
 * A signed GPS ping and the packed byte layout its Merkle leaf hashes
 * (Solidity Contract ABI Specification, section "Non-standard Packed Mode").
 */
module Telemetry {
  import opened Wrappers
  import opened ByteStrings
  import opened Seqs
  import opened Sorting

  /** Coordinates are the already rounded micro-degree integers that are hashed. */
  datatype SignedPing = SignedPing(
    tripId: Word, deviceId: Bytes, latE6: Int64, lngE6: Int64, ts: UInt64,
    signerTier: Byte, gatewaySig: Bytes,
    truckId: string, speedKph: Option<real>, receivedAt: nat, signerAddress: Address)

  /** The order every consumer sorts pings into. */
  predicate ByTs(p: SignedPing, q: SignedPing) {
    p.ts <= q.ts
  }

  lemma ByTsIsPreorder()
    ensures TotalPreorder(ByTs)
  {
  }

  /** The part of a ping that anchoring commits to. */
  datatype Canonical = Canonical(
    tripId: Word, deviceId: Bytes, latE6: Int64, lngE6: Int64, ts: UInt64,
    signerTier: Byte, gatewaySig: Bytes)

  function CanonicalFields(p: SignedPing): Canonical {
    Canonical(p.tripId, p.deviceId, p.latE6, p.lngE6, p.ts, p.signerTier, p.gatewaySig)
  }

  /** Two's complement, eight bytes. */
  function Int64Bytes(x: Int64): (b: Bytes)
    ensures |b| == 8
  {
    Pow256Values();
    ToBytes(if x < 0 then x + TWO_64 else x, 8)
  }

  function WordBytes(x: Word): (b: Bytes)
    ensures |b| == 32
  {
    Pow256ThirtyTwo();
    ToBytes(x, 32)
  }

  function UInt64Bytes(x: UInt64): (b: Bytes)
    ensures |b| == 8
  {
    Pow256Values();
    ToBytes(x, 8)
  }

  function Packed(h: Hash, p: SignedPing): (b: Bytes)
    ensures |b| == 89 + |p.gatewaySig|
  {
    WordBytes(p.tripId) + h(p.deviceId) + Int64Bytes(p.latE6) + Int64Bytes(p.lngE6) + UInt64Bytes(p.ts)
      + [p.signerTier] + p.gatewaySig
  }

  function PingLeaf(h: Hash, p: SignedPing): Bytes32 {
    h(Packed(h, p))
  }

  function Leaves(h: Hash, pings: seq<SignedPing>): (ls: seq<Bytes32>)
    ensures |ls| == |pings|
  {
    seq(|pings|, i requires 0 <= i < |pings| => PingLeaf(h, pings[i]))
  }

  lemma Int64BytesInjective(x: Int64, y: Int64)
    requires Int64Bytes(x) == Int64Bytes(y)
    ensures x == y
  {
    Pow256Values();
    ToBytesInjective(if x < 0 then x + TWO_64 else x, if y < 0 then y + TWO_64 else y, 8);
  }

  lemma WordBytesInjective(x: Word, y: Word)
    requires WordBytes(x) == WordBytes(y)
    ensures x == y
  {
    Pow256ThirtyTwo();
    ToBytesInjective(x, y, 32);
  }

  lemma UInt64BytesInjective(x: UInt64, y: UInt64)
    requires UInt64Bytes(x) == UInt64Bytes(y)
    ensures x == y
  {
    Pow256Values();
    ToBytesInjective(x, y, 8);
  }

  /** The packed layout determines every canonical field except the device id, which it
      determines up to its hash. */
  lemma PackedInjective(h: Hash, p: SignedPing, q: SignedPing)
    requires Packed(h, p) == Packed(h, q)
    ensures h(p.deviceId) == h(q.deviceId)
    ensures CanonicalFields(p) == CanonicalFields(q).(deviceId := p.deviceId)
  {
    var x, y := Packed(h, p), Packed(h, q);
    assert WordBytes(p.tripId) == x[..32] == y[..32] == WordBytes(q.tripId);
    assert h(p.deviceId) == x[32..64] == y[32..64] == h(q.deviceId);
    assert Int64Bytes(p.latE6) == x[64..72] == y[64..72] == Int64Bytes(q.latE6);
    assert Int64Bytes(p.lngE6) == x[72..80] == y[72..80] == Int64Bytes(q.lngE6);
    assert UInt64Bytes(p.ts) == x[80..88] == y[80..88] == UInt64Bytes(q.ts);
    assert p.signerTier == x[88] == y[88] == q.signerTier;
    assert p.gatewaySig == x[89..] == y[89..] == q.gatewaySig;
    WordBytesInjective(p.tripId, q.tripId);
    Int64BytesInjective(p.latE6, q.latE6);
    Int64BytesInjective(p.lngE6, q.lngE6);
    UInt64BytesInjective(p.ts, q.ts);
  }

  // ---------------------------------------------------------------- the layout

  lemma WordReads(w: Word)
    ensures BigEndian(WordBytes(w)) == w
  {
    Pow256ThirtyTwo();
    BigEndianOfToBytes(w, 32);
  }

  lemma UInt64Reads(x: UInt64)
    ensures BigEndian(UInt64Bytes(x)) == x
  {
    Pow256Values();
    BigEndianOfToBytes(x, 8);
  }

  lemma Int64Reads(x: Int64)
    ensures BigEndian(Int64Bytes(x)) == if x < 0 then x + 0x1_0000_0000_0000_0000 else x
  {
    Pow256Values();
    BigEndianOfToBytes(if x < 0 then x + TWO_64 else x, 8);
  }

  /** The frozen leaf layout, byte by byte; coordinates are in two's complement. */
  lemma PackedLayout(h: Hash, p: SignedPing)
    ensures var b := Packed(h, p);
            && BigEndian(b[0..32]) == p.tripId
            && b[32..64] == h(p.deviceId)
            && BigEndian(b[64..72]) == (if p.latE6 < 0 then p.latE6 + 0x1_0000_0000_0000_0000 else p.latE6)
            && BigEndian(b[72..80]) == (if p.lngE6 < 0 then p.lngE6 + 0x1_0000_0000_0000_0000 else p.lngE6)
            && BigEndian(b[80..88]) == p.ts
            && b[88] == p.signerTier
            && b[89..] == p.gatewaySig
  {
    var place := WordBytes(p.tripId) + h(p.deviceId) + Int64Bytes(p.latE6) + Int64Bytes(p.lngE6);
    var end := UInt64Bytes(p.ts) + [p.signerTier] + p.gatewaySig;
    assert Packed(h, p) == place + end;
    FourParts(WordBytes(p.tripId), h(p.deviceId), Int64Bytes(p.latE6), Int64Bytes(p.lngE6));
    SliceOfFront(place, end, 0, 32);
    SliceOfFront(place, end, 32, 64);
    SliceOfFront(place, end, 64, 72);
    SliceOfFront(place, end, 72, 80);
    PackedEnd(place, UInt64Bytes(p.ts), p.signerTier, p.gatewaySig);
    WordReads(p.tripId);
    Int64Reads(p.latE6);
    Int64Reads(p.lngE6);
    UInt64Reads(p.ts);
  }

  lemma PackedEnd(front: Bytes, ts: Bytes, tier: Byte, sig: Bytes)
    requires |front| == 80 && |ts| == 8
    ensures var b := front + (ts + [tier] + sig);
            b[80..88] == ts && b[88] == tier && b[89..] == sig
  {
  }
}
