/**
 * Who may write to CustodyManifest and what a call has to bring: exact acceptance and effect of
 * every call, the caller behind every change of a run, and how signatures and signed bytes are
 * laid out.
 */
module CustodyRights {
  import opened Wrappers
  import opened ByteStrings
  import opened Seqs
  import opened Telemetry
  import opened Custody

  // ---------------------------------------------------------------- who may call

  /** Nobody outside the platforms gets a manifest call through, and nothing changes. */
  lemma OutsidersAreRefused(c: Crypto, s: State, call: Call)
    requires call.sender !in s.platforms && !call.op.TransferOwnership? && !call.op.SetPlatform?
    ensures Apply(c, s, call) == Err(NotPlatform) && Step(c, s, call) == s
  {
  }

  /** Nobody but the owner administers, platform or not. */
  lemma OnlyTheOwnerAdministers(c: Crypto, s: State, call: Call)
    requires call.sender != s.owner && (call.op.TransferOwnership? || call.op.SetPlatform?)
    ensures Apply(c, s, call) == Err(NotOwner) && Step(c, s, call) == s
  {
  }

  lemma LastCall(c: Crypto, s: State, calls: seq<Call>)
    requires |calls| > 0
    ensures Run(c, s, calls) == Step(c, Run(c, s, calls[..|calls| - 1]), calls[|calls| - 1])
    ensures calls[..|calls|] == calls
  {
  }

  /** Behind every change a run makes to a manifest stands an accepted call on that manifest,
      and its sender was a platform at that moment. It wrote what is there at the end. */
  lemma {:induction false} EveryWriteIsAPlatforms(c: Crypto, s: State, calls: seq<Call>, id: Word) returns (k: nat)
    requires id in Run(c, s, calls).manifests
    requires id !in s.manifests || s.manifests[id] != Run(c, s, calls).manifests[id]
    ensures k < |calls|
    ensures var before := Run(c, s, calls[..k]);
            && calls[k].sender in before.platforms
            && !calls[k].op.TransferOwnership? && !calls[k].op.SetPlatform? && calls[k].op.id == id
            && Apply(c, before, calls[k]).Ok?
            && id in Apply(c, before, calls[k]).value.manifests
            && Apply(c, before, calls[k]).value.manifests[id] == Run(c, s, calls).manifests[id]
  {
    var n := |calls| - 1;
    LastCall(c, s, calls);
    var before := Run(c, s, calls[..n]);
    if id in before.manifests && before.manifests[id] == Run(c, s, calls).manifests[id] {
      k := EveryWriteIsAPlatforms(c, s, calls[..n], id);
      assert calls[..n][..k] == calls[..k];
    } else {
      k := n;
    }
  }

  /** Behind every change of the owner or the platforms stands a call of the owner at that moment. */
  lemma {:induction false} EveryAdminChangeIsTheOwners(c: Crypto, s: State, calls: seq<Call>) returns (k: nat)
    requires Run(c, s, calls).owner != s.owner || Run(c, s, calls).platforms != s.platforms
    ensures k < |calls|
    ensures calls[k].sender == Run(c, s, calls[..k]).owner
    ensures calls[k].op.TransferOwnership? || calls[k].op.SetPlatform?
  {
    var n := |calls| - 1;
    LastCall(c, s, calls);
    var before := Run(c, s, calls[..n]);
    if before.owner == Run(c, s, calls).owner && before.platforms == Run(c, s, calls).platforms {
      k := EveryAdminChangeIsTheOwners(c, s, calls[..n]);
      assert calls[..n][..k] == calls[..k];
    } else {
      k := n;
    }
  }

  // ---------------------------------------------------------------- what is accepted

  /** The signature of a call recovers to this address. */
  predicate Signed(c: Crypto, digest: Bytes32, sig: Bytes, signer: Address) {
    Recover(c, digest, sig) == Some(signer)
  }

  /** A manifest is created exactly if a platform asks for a new id, some pieces and three real
      parties; it then holds what was asked for. */
  lemma CreatedIff(c: Crypto, s: State, call: Call)
    requires call.op.CreateManifest?
    ensures var CreateManifest(id, tripId, n, loader, driver, receiver) := call.op;
            && (Apply(c, s, call).Ok? <==>
                  && call.sender in s.platforms && id !in s.manifests && n > 0
                  && loader != 0 && driver != 0 && receiver != 0)
            && (Apply(c, s, call).Ok? ==>
                  && id in Step(c, s, call).manifests
                  && var m := Step(c, s, call).manifests[id];
                  && m.tripId == tripId && m.pieceCount == n && m.deliveredCount == 0 && m.status == Created
                  && m.loader == loader && m.driver == driver && m.receiver == receiver
                  && !m.loaderSigned && !m.driverSigned && !m.receiverSigned
                  && m.createdAt == call.now % 0x1_0000_0000_0000_0000 && m.custodyStartAt == 0 && m.deliveredAt == 0)
  {
  }

  /** The parties and the count a manifest was created with are its parties and count for good. */
  lemma CreatedForGood(c: Crypto, s: State, call: Call, later: seq<Call>)
    requires AllConsistent(s) && call.op.CreateManifest? && Apply(c, s, call).Ok?
    ensures var y := Run(c, Step(c, s, call), later);
            && call.op.id in y.manifests
            && var m := y.manifests[call.op.id];
            && m.tripId == call.op.tripId && m.pieceCount == call.op.pieceCount
            && m.loader == call.op.loader && m.driver == call.op.driver && m.receiver == call.op.receiver
  {
    StepKeepsConsistent(c, s, call);
    RunKeepsConsistent(c, Step(c, s, call), later);
    assert Follows(Step(c, s, call).manifests[call.op.id], Run(c, Step(c, s, call), later).manifests[call.op.id]);
  }

  /** A loading signature is taken exactly from a platform, for a fresh manifest, if it is the
      named party's over that manifest. The second of the two starts custody at that moment. */
  lemma LoadingSignedIff(c: Crypto, s: State, call: Call)
    requires call.op.SubmitLoaderSignature? || call.op.SubmitDriverSignature?
    ensures var id := call.op.id;
            var byLoader := call.op.SubmitLoaderSignature?;
            && (Apply(c, s, call).Ok? <==>
                  && call.sender in s.platforms && id in s.manifests && s.manifests[id].status == Created
                  && Signed(c, LoadingDigest(c, id), call.op.sig,
                            if byLoader then s.manifests[id].loader else s.manifests[id].driver))
            && (Apply(c, s, call).Ok? ==>
                  && var m, y := s.manifests[id], Step(c, s, call).manifests[id];
                  && (y.loaderSigned <==> m.loaderSigned || byLoader)
                  && (y.driverSigned <==> m.driverSigned || !byLoader)
                  && y.status == (if y.loaderSigned && y.driverSigned then InCustody else Created)
                  && y.custodyStartAt == (if y.status == InCustody then call.now % 0x1_0000_0000_0000_0000 else m.custodyStartAt)
                  && y.receiverSigned == m.receiverSigned && y.deliveredCount == m.deliveredCount)
  {
  }

  /** A delivery is confirmed exactly by a platform, while the goods are in custody, for at most
      the loaded pieces, with the receiver's signature over this very count. Only a full count
      is a delivery. */
  lemma ConfirmedIff(c: Crypto, s: State, call: Call)
    requires call.op.ConfirmDelivery?
    ensures var ConfirmDelivery(id, n, sig) := call.op;
            && (Apply(c, s, call).Ok? <==>
                  && call.sender in s.platforms && id in s.manifests && s.manifests[id].status == InCustody
                  && n <= s.manifests[id].pieceCount
                  && Signed(c, DeliveryDigest(c, id, n), sig, s.manifests[id].receiver))
            && (Apply(c, s, call).Ok? ==>
                  && var m, y := s.manifests[id], Step(c, s, call).manifests[id];
                  && y.receiverSigned && y.deliveredCount == n && y.deliveredAt == call.now % 0x1_0000_0000_0000_0000
                  && (y.status == Delivered <==> n == m.pieceCount) && (y.status == Short <==> n < m.pieceCount))
  {
  }

  /** A manifest is disputed exactly by a platform, at any stage, and nothing but its status changes. */
  lemma DisputedIff(c: Crypto, s: State, call: Call)
    requires call.op.MarkDisputed?
    ensures Apply(c, s, call).Ok? <==> call.sender in s.platforms && call.op.id in s.manifests
    ensures Apply(c, s, call).Ok? ==>
              && Step(c, s, call).manifests[call.op.id].status == Status.Disputed
              && Step(c, s, call).manifests[call.op.id].(status := Created) == s.manifests[call.op.id].(status := Created)
  {
  }

  /** The owner's two calls. */
  lemma AdministeredIff(c: Crypto, s: State, call: Call, p: Address)
    requires call.op.TransferOwnership? || call.op.SetPlatform?
    ensures Apply(c, s, call).Ok? <==> call.sender == s.owner
    ensures Apply(c, s, call).Ok? ==>
              && Step(c, s, call).manifests == s.manifests
              && Step(c, s, call).owner == (if call.op.TransferOwnership? then call.op.newOwner else s.owner)
              && (p in Step(c, s, call).platforms <==>
                    if call.op.SetPlatform? && call.op.platform == p then call.op.allowed else p in s.platforms)
  {
  }

  // ---------------------------------------------------------------- signed bytes

  /** The text, one byte a character. */
  predicate Spells(b: Bytes, text: string) {
    |b| == |text| && forall i :: 0 <= i < |b| ==> b[i] == text[i] as int
  }

  /** A wallet's signature, its r, s and v put together in that order, recovers to the key that
      ecrecover finds over the prefixed digest, whether v counts from 27 or from 0. */
  lemma WalletSignatureRecovers(c: Crypto, digest: Bytes32, r: Bytes32, s: Bytes32, v: Byte)
    requires v == 27 || v == 28
    ensures Spells(ETH_PREFIX, "\U{19}Ethereum Signed Message:\n32")
    ensures var key := c.ecrecover(c.keccak(ETH_PREFIX + digest), v, r, s);
              && Recover(c, digest, r + s + [v]) == (if key == 0 then None else Some(key))
              && Recover(c, digest, r + s + [v - 27]) == (if key == 0 then None else Some(key))
  {
    var sig, low := r + s + [v], r + s + [v - 27];
    assert sig[..32] == r && sig[32..64] == s && sig[64] == v;
    assert low[..32] == r && low[32..64] == s && low[64] == v - 27;
  }

  /** Nothing of another length is a signature. */
  lemma OtherLengthsDoNotRecover(c: Crypto, digest: Bytes32, sig: Bytes)
    requires |sig| != 65
    ensures Recover(c, digest, sig) == None
  {
  }

  lemma AddressReads(a: Address)
    ensures BigEndian(AddressBytes(a)) == a
  {
    Pow256Twenty();
    BigEndianOfToBytes(a, 20);
  }

  lemma UInt32Reads(n: UInt32)
    ensures BigEndian(UInt32Bytes(n)) == n
  {
    Pow256Values();
    BigEndianOfToBytes(n, 4);
  }

  lemma TagsSpell()
    ensures Spells(LOADING_TAG, "DTD_LOADING") && Spells(DELIVERY_TAG, "DTD_DELIVERY")
  {
  }

  lemma LoadingParts(c: Crypto, id: Word)
    ensures var b := LoadingPreimage(c, id);
            && b[..11] == LOADING_TAG && b[11..43] == WordBytes(c.chainId) && b[43..63] == AddressBytes(c.self)
            && b[63..95] == WordBytes(id)
  {
    FourParts(LOADING_TAG, WordBytes(c.chainId), AddressBytes(c.self), WordBytes(id));
  }

  /** What loader and driver sign, byte by byte. */
  lemma LoadingLayout(c: Crypto, id: Word)
    ensures var b := LoadingPreimage(c, id);
            && |b| == 95 && Spells(b[..11], "DTD_LOADING")
            && BigEndian(b[11..43]) == c.chainId && BigEndian(b[43..63]) == c.self && BigEndian(b[63..95]) == id
  {
    TagsSpell();
    LoadingParts(c, id);
    WordReads(c.chainId);
    AddressReads(c.self);
    WordReads(id);
  }

  lemma DeliveryParts(c: Crypto, id: Word, count: UInt32)
    ensures var b := DeliveryPreimage(c, id, count);
            && b[..12] == DELIVERY_TAG && b[12..44] == WordBytes(c.chainId) && b[44..64] == AddressBytes(c.self)
            && b[64..96] == WordBytes(id) && b[96..100] == UInt32Bytes(count)
  {
    var front := DELIVERY_TAG + WordBytes(c.chainId) + AddressBytes(c.self) + WordBytes(id);
    FourParts(DELIVERY_TAG, WordBytes(c.chainId), AddressBytes(c.self), WordBytes(id));
    SliceOfFront(front, UInt32Bytes(count), 0, 12);
    SliceOfFront(front, UInt32Bytes(count), 12, 44);
    SliceOfFront(front, UInt32Bytes(count), 44, 64);
    SliceOfFront(front, UInt32Bytes(count), 64, 96);
    LastPart(front, UInt32Bytes(count));
  }

  /** What the receiver signs, byte by byte. */
  lemma DeliveryLayout(c: Crypto, id: Word, count: UInt32)
    ensures var b := DeliveryPreimage(c, id, count);
            && |b| == 100 && Spells(b[..12], "DTD_DELIVERY")
            && BigEndian(b[12..44]) == c.chainId && BigEndian(b[44..64]) == c.self
            && BigEndian(b[64..96]) == id && BigEndian(b[96..100]) == count
  {
    TagsSpell();
    DeliveryParts(c, id, count);
    WordReads(c.chainId);
    AddressReads(c.self);
    WordReads(id);
    UInt32Reads(count);
  }
}
