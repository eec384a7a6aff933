/** From a booking's piece list to an anchored, stored and indexed manifest. */
module ManifestBuilder {
  import opened Wrappers
  import opened ByteStrings
  import opened Seqs
  import opened Custody
  import opened CustodyRights
  import opened ScanLog
  import opened Reconciliation
  import opened ReleaseGate
  import opened CanonicalManifest

  datatype PieceInput = PieceInput(id: Option<PieceId>, sku: Option<string>, weightKg: Option<real>)

  datatype BuildError =
    | ManifestExistsForBooking | NeedPiecesOrPieceCount | PieceCountMustBePositive | PieceCountTooLarge
    | SchemaRejected | AnchorFailed | PersistFailed

  const MAX_MINTED := 10_000

  /** n fresh ids, as the random generator returns them: distinct. */
  type Mint = nat -> seq<PieceId>

  ghost predicate Mints(mint: Mint) {
    forall n :: 0 < n <= MAX_MINTED ==> |mint(n)| == n && NoRepeats(mint(n))
  }

  // ---------------------------------------------------------------- resolving pieces

  function Unlabelled(inputs: seq<PieceInput>): (n: nat)
    ensures n <= |inputs|
  {
    if |inputs| == 0 then 0
    else Unlabelled(inputs[..|inputs| - 1]) + (if inputs[|inputs| - 1].id.None? then 1 else 0)
  }

  lemma {:induction false} UnlabelledGrows(inputs: seq<PieceInput>, i: nat)
    requires i <= |inputs|
    ensures Unlabelled(inputs[..i]) <= Unlabelled(inputs)
    ensures i < |inputs| && inputs[i].id.None? ==> Unlabelled(inputs[..i]) < Unlabelled(inputs)
  {
    if i < |inputs| {
      UnlabelledGrows(inputs[..|inputs| - 1], i);
      assert inputs[..|inputs| - 1][..i] == inputs[..i];
    } else {
      TakeAll(inputs);
    }
  }

  /** The i-th piece: its own id, or the next minted one. */
  function Labelled(inputs: seq<PieceInput>, minted: seq<PieceId>, i: nat): Piece
    requires i < |inputs| && Unlabelled(inputs) <= |minted|
  {
    UnlabelledGrows(inputs, i);
    var p := inputs[i];
    Piece(if p.id.Some? then p.id.value else minted[Unlabelled(inputs[..i])], p.sku, p.weightKg)
  }

  function LabelAll(inputs: seq<PieceInput>, minted: seq<PieceId>): (pieces: seq<Piece>)
    requires Unlabelled(inputs) <= |minted|
    ensures |pieces| == |inputs|
    ensures forall i :: 0 <= i < |inputs| ==> pieces[i] == Labelled(inputs, minted, i)
  {
    seq(|inputs|, i requires 0 <= i < |inputs| => Labelled(inputs, minted, i))
  }

  function BareFrom(minted: seq<PieceId>): (pieces: seq<Piece>)
    ensures |pieces| == |minted|
    ensures forall i :: 0 <= i < |minted| ==> pieces[i] == Piece(minted[i], None, None)
  {
    seq(|minted|, i requires 0 <= i < |minted| => Piece(minted[i], None, None))
  }

  function Minted(mint: Mint, n: nat): Result<seq<PieceId>, BuildError> {
    if n == 0 then Err(PieceCountMustBePositive)
    else if n > MAX_MINTED then Err(PieceCountTooLarge)
    else Ok(mint(n))
  }

  function Resolve(mint: Mint, inputs: seq<PieceInput>, pieceCount: nat): Result<seq<Piece>, BuildError>
    requires Mints(mint)
  {
    if |inputs| > 0 then
      match Minted(mint, Unlabelled(inputs))
      case Err(e) => Err(e)
      case Ok(minted) => Ok(LabelAll(inputs, minted))
    else if pieceCount == 0 then Err(NeedPiecesOrPieceCount)
    else
      match Minted(mint, pieceCount)
      case Err(e) => Err(e)
      case Ok(minted) => Ok(BareFrom(minted))
  }

  lemma {:induction false} AllLabelled(inputs: seq<PieceInput>)
    ensures Unlabelled(inputs) == 0 <==> forall p :: p in inputs ==> p.id.Some?
  {
    if |inputs| > 0 {
      AllLabelled(inputs[..|inputs| - 1]);
      assert inputs == inputs[..|inputs| - 1] + [inputs[|inputs| - 1]];
    }
  }

  /** Pieces resolve exactly when between one and ten thousand ids have to be minted. So a list
      in which every piece already carries its id is refused, although ids are optional input. */
  lemma ResolvesIff(mint: Mint, inputs: seq<PieceInput>, pieceCount: nat)
    requires Mints(mint)
    ensures Resolve(mint, inputs, pieceCount).Ok? <==>
              0 < (if |inputs| > 0 then Unlabelled(inputs) else pieceCount) <= MAX_MINTED
    ensures |inputs| > 0 && (forall p :: p in inputs ==> p.id.Some?) ==>
              Resolve(mint, inputs, pieceCount) == Err(PieceCountMustBePositive)
    ensures Resolve(mint, inputs, pieceCount).Ok? ==>
              && |Resolve(mint, inputs, pieceCount).value| == (if |inputs| > 0 then |inputs| else pieceCount) > 0
              && (|inputs| == 0 ==>
                    forall i :: 0 <= i < pieceCount ==>
                      Resolve(mint, inputs, pieceCount).value[i] == Piece(mint(pieceCount)[i], None, None))
  {
    AllLabelled(inputs);
  }

  lemma {:induction false} CounterSeparates(inputs: seq<PieceInput>, i: nat, j: nat)
    requires i < j < |inputs| && inputs[i].id.None?
    ensures Unlabelled(inputs[..i]) < Unlabelled(inputs[..j])
  {
    UnlabelledGrows(inputs[..j], i);
    assert inputs[..j][..i] == inputs[..i] && inputs[..j][i] == inputs[i];
  }

  ghost predicate LabelsDistinct(inputs: seq<PieceInput>) {
    forall i, j :: 0 <= i < j < |inputs| && inputs[i].id.Some? ==> inputs[i].id != inputs[j].id
  }

  ghost predicate FreshFor(minted: seq<PieceId>, inputs: seq<PieceInput>) {
    forall p :: p in inputs && p.id.Some? ==> p.id.value !in minted
  }

  /** The minting counter hands out each id once: given distinct explicit ids and minted ids
      that are distinct from them, the resolved ids are distinct, explicit ids stay where they
      are, and each piece keeps its sku and weight. */
  lemma ResolvedIdsDistinct(inputs: seq<PieceInput>, minted: seq<PieceId>)
    requires Unlabelled(inputs) <= |minted| && NoRepeats(minted)
    requires LabelsDistinct(inputs) && FreshFor(minted, inputs)
    ensures NoRepeats(IdsOf(LabelAll(inputs, minted)))
    ensures forall i :: 0 <= i < |inputs| ==> KeepsInput(inputs[i], LabelAll(inputs, minted)[i])
  {
    var pieces := LabelAll(inputs, minted);
    forall i, j | 0 <= i < j < |inputs| ensures pieces[i].id != pieces[j].id {
      LabelsDiffer(inputs, minted, i, j);
    }
  }

  predicate KeepsInput(p: PieceInput, piece: Piece) {
    piece.sku == p.sku && piece.weightKg == p.weightKg && (p.id.Some? ==> piece.id == p.id.value)
  }

  lemma LabelsDiffer(inputs: seq<PieceInput>, minted: seq<PieceId>, i: nat, j: nat)
    requires Unlabelled(inputs) <= |minted| && NoRepeats(minted) && i < j < |inputs|
    requires LabelsDistinct(inputs) && FreshFor(minted, inputs)
    ensures Labelled(inputs, minted, i).id != Labelled(inputs, minted, j).id
  {
    UnlabelledGrows(inputs, i);
    UnlabelledGrows(inputs, j);
    assert inputs[i] in inputs && inputs[j] in inputs;
    if inputs[i].id.None? {
      CounterSeparates(inputs, i, j);
    }
  }

  // ---------------------------------------------------------------- the store

  /** Every stored manifest is valid, carries its own hash and is on chain. */
  ghost predicate DocsAnchored(docs: map<Word, Draft>, chain: map<Word, Manifest>, hash: Canonical -> Word) {
    forall id :: id in docs ==>
      && Schema(docs[id]) && id == ManifestId(hash, docs[id])
      && id in chain && chain[id].pieceCount == docs[id].pieceCount && chain[id].tripId == docs[id].tripId
  }

  /** The piece index names exactly the stored pieces, each with its one manifest. */
  ghost predicate IndexAgrees(docs: map<Word, Draft>, index: map<PieceId, Word>) {
    && (forall p :: p in index ==> index[p] in docs && p in IdsOf(docs[index[p]].pieces))
    && (forall p, id :: id in docs && p in IdsOf(docs[id].pieces) ==> p in index && index[p] == id)
  }

  ghost predicate OnePerBooking(docs: map<Word, Draft>) {
    forall j, k :: j in docs && k in docs && SameUuid(docs[j].bookingId, docs[k].bookingId) ==> j == k
  }

  ghost predicate StoreBacked(docs: map<Word, Draft>, index: map<PieceId, Word>, chain: map<Word, Manifest>, hash: Canonical -> Word) {
    DocsAnchored(docs, chain, hash) && IndexAgrees(docs, index) && OnePerBooking(docs)
  }

  predicate BookingTaken(docs: map<Word, Draft>, b: string) {
    exists id :: id in docs && SameUuid(docs[id].bookingId, b)
  }

  /** What the store holds is what the payout path assumes of its documents: valid lists of
      the count on chain, no two for one booking number, and no piece in two of them. */
  lemma StoredDocsFitPayouts(docs: map<Word, Draft>, index: map<PieceId, Word>, chain: map<Word, Manifest>,
                             hash: Canonical -> Word, j: Word, k: Word)
    requires StoreBacked(docs, index, chain, hash) && j in docs && k in docs
    ensures ValidDoc(DocOf(docs[j])) && |DocOf(docs[j]).pieces| == chain[j].pieceCount
    ensures j != k ==> DocOf(docs[j]).bookingId != DocOf(docs[k]).bookingId
    ensures j != k ==> Members(DocOf(docs[j]).pieces) !! Members(DocOf(docs[k]).pieces)
  {
    SchemaIsValidDoc(docs[j]);
    SameUuidIff(docs[j].bookingId, docs[k].bookingId);
    if j != k {
      PiecesApart(docs, index, j, k);
    }
  }

  lemma SchemaIsValidDoc(m: Draft)
    requires Schema(m) && m.pieceCount < TWO_32
    ensures ValidDoc(DocOf(m)) && |DocOf(m).pieces| == m.pieceCount
  {
  }

  lemma PiecesApart(docs: map<Word, Draft>, index: map<PieceId, Word>, j: Word, k: Word)
    requires IndexAgrees(docs, index) && j in docs && k in docs && j != k
    ensures Members(IdsOf(docs[j].pieces)) !! Members(IdsOf(docs[k].pieces))
  {
    forall p | p in IdsOf(docs[j].pieces) ensures p !in IdsOf(docs[k].pieces) {
      assert index[p] == j;
    }
  }

  class ManifestStore {
    /** The company whose session writes the rows, a uuid text. */
    const companyId: string
    var docs: map<Word, Draft>
    var index: map<PieceId, Word>

    constructor (companyId: string)
      ensures this.companyId == companyId && docs == map[] && index == map[]
    {
      this.companyId, docs, index := companyId, map[], map[];
    }

    /** INSERT under the primary key and the one-manifest-per-booking index. */
    method Put(id: Word, m: Draft) returns (ok: bool)
      modifies this`docs
      ensures ok <==> id !in old(docs) && !BookingTaken(old(docs), m.bookingId)
      ensures docs == if ok then old(docs)[id := m] else old(docs)
    {
      ok := id !in docs && !BookingTaken(docs, m.bookingId);
      if ok { docs := docs[id := m]; }
    }

    /** INSERT of all piece rows or none, under the primary key on the piece id. */
    method IndexPieces(id: Word, ids: seq<PieceId>) returns (ok: bool)
      modifies this`index
      ensures ok <==> NoRepeats(ids) && forall p :: p in ids ==> p !in old(index)
      ensures index == if ok then old(index) + map p | p in ids :: id else old(index)
    {
      ok := NoRepeats(ids) && forall p :: p in ids ==> p !in index;
      if ok { index := index + map p | p in ids :: id; }
    }

    /** Both inserts in one transaction: both happen or neither. */
    method PutIndexed(id: Word, m: Draft) returns (ok: bool)
      modifies this
      ensures ok <==> Storable(old(docs), old(index), id, m)
      ensures docs == if ok then old(docs)[id := m] else old(docs)
      ensures index == if ok then old(index) + map p | p in IdsOf(m.pieces) :: id else old(index)
    {
      var before := docs;
      ok := Put(id, m);
      if ok {
        ok := IndexPieces(id, IdsOf(m.pieces));
        if !ok { docs := before; }
      }
    }
  }

  /** What both inserts need: a free id, a free booking, and pieces that are new and different. */
  predicate Storable(docs: map<Word, Draft>, index: map<PieceId, Word>, id: Word, m: Draft) {
    && id !in docs && !BookingTaken(docs, m.bookingId)
    && NoRepeats(IdsOf(m.pieces)) && forall p :: p in IdsOf(m.pieces) ==> p !in index
  }

  datatype BuildInput = BuildInput(
    bookingId: string, transporterId: string, tripId: Word, inputs: seq<PieceInput>, pieceCount: nat,
    loader: string, driver: string, receiver: string)

  /** The draft whose canonical form is hashed. */
  function DraftOf(x: BuildInput, pieces: seq<Piece>, createdAt: string): Draft {
    Draft(x.tripId, x.bookingId, x.transporterId, |pieces|, pieces, x.loader, x.driver, x.receiver, createdAt)
  }

  lemma IndexExtended(docs: map<Word, Draft>, index: map<PieceId, Word>, id: Word, m: Draft, index': map<PieceId, Word>)
    requires IndexAgrees(docs, index) && id !in docs
    requires forall p :: p in IdsOf(m.pieces) ==> p !in index
    requires index' == index + map p | p in IdsOf(m.pieces) :: id
    ensures IndexAgrees(docs[id := m], index')
  {
  }

  lemma StoreExtended(docs: map<Word, Draft>, index: map<PieceId, Word>, chain: map<Word, Manifest>, hash: Canonical -> Word,
                      id: Word, m: Draft, index': map<PieceId, Word>)
    requires StoreBacked(docs, index, chain, hash) && Schema(m) && id == ManifestId(hash, m)
    requires id in chain && chain[id].pieceCount == m.pieceCount && chain[id].tripId == m.tripId
    requires id !in docs && !BookingTaken(docs, m.bookingId)
    requires forall p :: p in IdsOf(m.pieces) ==> p !in index
    requires index' == index + map p | p in IdsOf(m.pieces) :: id
    ensures StoreBacked(docs[id := m], index', chain, hash)
  {
    IndexExtended(docs, index, id, m, index');
    AnchoredExtended(docs, chain, hash, id, m);
    BookingsExtended(docs, id, m);
  }

  lemma AnchoredExtended(docs: map<Word, Draft>, chain: map<Word, Manifest>, hash: Canonical -> Word, id: Word, m: Draft)
    requires DocsAnchored(docs, chain, hash) && Schema(m) && id == ManifestId(hash, m)
    requires id in chain && chain[id].pieceCount == m.pieceCount && chain[id].tripId == m.tripId
    ensures DocsAnchored(docs[id := m], chain, hash)
  {
  }

  lemma BookingsExtended(docs: map<Word, Draft>, id: Word, m: Draft)
    requires OnePerBooking(docs) && id !in docs && !BookingTaken(docs, m.bookingId)
    ensures OnePerBooking(docs[id := m])
  {
  }

  /** Creating a manifest leaves every other one alone. */
  lemma CreateExtends(c: Crypto, s: State, call: Call)
    requires call.op.CreateManifest?
    ensures var y := Step(c, s, call);
            && (forall k :: k in s.manifests ==> k in y.manifests && y.manifests[k] == s.manifests[k])
            && (Apply(c, s, call).Err? ==> y == s)
            && (Apply(c, s, call).Ok? ==>
                  && call.op.id !in s.manifests && call.op.id in y.manifests
                  && var m := y.manifests[call.op.id];
                  m.status == Created && m.pieceCount == call.op.pieceCount && m.tripId == call.op.tripId)
  {
  }

  lemma AnchoredGrows(docs: map<Word, Draft>, chain: map<Word, Manifest>, chain': map<Word, Manifest>, hash: Canonical -> Word)
    requires DocsAnchored(docs, chain, hash)
    requires forall k :: k in chain ==> k in chain' && chain'[k] == chain[k]
    ensures DocsAnchored(docs, chain', hash)
  {
  }

  class Builder {
    const store: ManifestStore
    const chain: CustodyManifest
    const hash: Canonical -> Word
    const mint: Mint
    const addressOf: string -> Address

    ghost predicate Valid()
      reads this, store, chain
    {
      Mints(mint) && StoreBacked(store.docs, store.index, chain.manifests, hash)
    }

    constructor (store: ManifestStore, chain: CustodyManifest, hash: Canonical -> Word, mint: Mint, addressOf: string -> Address)
      requires Mints(mint) && StoreBacked(store.docs, store.index, chain.manifests, hash)
      ensures Valid() && this.store == store && this.chain == chain
      ensures this.hash == hash && this.mint == mint && this.addressOf == addressOf
    {
      this.store, this.chain, this.hash, this.mint, this.addressOf := store, chain, hash, mint, addressOf;
    }

    method GeneratePieceIds(n: nat) returns (r: Result<seq<PieceId>, BuildError>)
      ensures r == Minted(mint, n)
    {
      if n <= 0 { return Err(PieceCountMustBePositive); }
      if n > MAX_MINTED { return Err(PieceCountTooLarge); }
      return Ok(mint(n));
    }

    /** The labelling loop, with its counter g into the minted ids. */
    method ResolvePieces(inputs: seq<PieceInput>, pieceCount: nat) returns (r: Result<seq<Piece>, BuildError>)
      requires Mints(mint)
      ensures r == Resolve(mint, inputs, pieceCount)
    {
      if |inputs| > 0 {
        var generated := GeneratePieceIds(Unlabelled(inputs));
        if generated.Err? { return Err(generated.error); }
        var pieces: seq<Piece> := [];
        var g := 0;
        for i := 0 to |inputs|
          invariant g == Unlabelled(inputs[..i])
          invariant |pieces| == i && forall k :: 0 <= k < i ==> pieces[k] == Labelled(inputs, generated.value, k)
        {
          UnlabelledGrows(inputs, i);
          assert inputs[..i + 1][..i] == inputs[..i];
          var p := inputs[i];
          if p.id.Some? {
            pieces := pieces + [Piece(p.id.value, p.sku, p.weightKg)];
          } else {
            pieces := pieces + [Piece(generated.value[g], p.sku, p.weightKg)];
            g := g + 1;
          }
        }
        assert pieces == LabelAll(inputs, generated.value);
        return Ok(pieces);
      }
      if pieceCount == 0 { return Err(NeedPiecesOrPieceCount); }
      var generated := GeneratePieceIds(pieceCount);
      if generated.Err? { return Err(generated.error); }
      return Ok(BareFrom(generated.value));
    }

    /** Validate, hash, anchor, then persist. Whatever fails, nothing half-real is stored: the
        store either gains exactly this manifest, anchored and indexed, or is unchanged. The
        first obstacle decides the answer, and without one the manifest is built. */
    method Build(x: BuildInput, sender: Address, now: nat, createdAt: string) returns (r: Result<Word, BuildError>)
      requires Valid()
      modifies chain, store
      ensures Valid()
      ensures r.Err? ==> store.docs == old(store.docs) && store.index == old(store.index)
      ensures r.Err? && r.error != PersistFailed ==> chain.View() == old(chain.View())
      ensures BookingTaken(old(store.docs), x.bookingId) ==> r == Err(ManifestExistsForBooking)
      ensures !BookingTaken(old(store.docs), x.bookingId) ==>
                match Resolve(mint, x.inputs, x.pieceCount)
                case Err(e) => r == Err(e)
                case Ok(pieces) =>
                  var m := DraftOf(x, pieces, createdAt);
                  var id := ManifestId(hash, m);
                  && (!Schema(m) ==> r == Err(SchemaRejected))
                  && (Schema(m) && !Anchorable(old(chain.View()), sender, id, m) ==> r == Err(AnchorFailed))
                  && (Schema(m) && Anchorable(old(chain.View()), sender, id, m) ==>
                        && (r == Ok(id) <==> Storable(old(store.docs), old(store.index), id, m))
                        && (r == Err(PersistFailed) <==> !Storable(old(store.docs), old(store.index), id, m))
                        && id in chain.manifests && chain.manifests[id] == Asked(x, |pieces|, now))
                  && (r.Ok? ==>
                        && store.docs == old(store.docs)[id := m]
                        && store.index == old(store.index) + map p | p in IdsOf(pieces) :: id)
    {
      if BookingTaken(store.docs, x.bookingId) { return Err(ManifestExistsForBooking); }
      var resolved := ResolvePieces(x.inputs, x.pieceCount);
      if resolved.Err? { return Err(resolved.error); }
      var m := DraftOf(x, resolved.value, createdAt);
      var id := ManifestId(hash, m);
      if !Schema(m) { return Err(SchemaRejected); }
      var anchored := Anchor(id, m, sender, now);
      if !anchored { return Err(AnchorFailed); }
      var stored := Persist(id, m);
      return if stored then Ok(id) else Err(PersistFailed);
    }

    /** What the contract needs to take the manifest. */
    predicate Anchorable(s: State, sender: Address, id: Word, m: Draft) {
      && sender in s.platforms && id !in s.manifests && 0 < m.pieceCount < 0x1_0000_0000
      && addressOf(m.loader) != 0 && addressOf(m.driver) != 0 && addressOf(m.receiver) != 0
    }

    /** The manifest a booking asks for, as it is first on chain. */
    function Asked(x: BuildInput, n: UInt32, now: nat): Manifest {
      Manifest(x.tripId, n, 0, addressOf(x.loader), addressOf(x.driver), addressOf(x.receiver), false, false, false,
               now % 0x1_0000_0000_0000_0000, 0, 0, Created)
    }

    /** Anchoring comes first, and either creates the manifest or changes nothing. */
    method Anchor(id: Word, m: Draft, sender: Address, now: nat) returns (ok: bool)
      requires Valid()
      modifies chain
      ensures Valid()
      ensures ok <==> Anchorable(old(chain.View()), sender, id, m)
      ensures !ok ==> chain.View() == old(chain.View())
      ensures ok ==>
                && id in chain.manifests
                && chain.manifests[id]
                   == Manifest(m.tripId, m.pieceCount, 0, addressOf(m.loader), addressOf(m.driver), addressOf(m.receiver),
                               false, false, false, now % 0x1_0000_0000_0000_0000, 0, 0, Created)
    {
      if m.pieceCount >= TWO_32 { return false; }
      ghost var before := chain.View();
      var l, d, v := addressOf(m.loader), addressOf(m.driver), addressOf(m.receiver);
      var r := chain.CreateManifest(sender, now, id, m.tripId, m.pieceCount, l, d, v);
      CreateExtends(chain.crypto, before, Call(sender, now, CreateManifest(id, m.tripId, m.pieceCount, l, d, v)));
      CreatedIff(chain.crypto, before, Call(sender, now, CreateManifest(id, m.tripId, m.pieceCount, l, d, v)));
      AnchoredGrows(store.docs, before.manifests, chain.manifests, hash);
      ok := r.Ok?;
    }

    /** What was anchored is stored and indexed, or nothing is. */
    method Persist(id: Word, m: Draft) returns (ok: bool)
      requires Valid() && Schema(m) && id == ManifestId(hash, m)
      requires id in chain.manifests && chain.manifests[id].pieceCount == m.pieceCount && chain.manifests[id].tripId == m.tripId
      modifies store
      ensures Valid()
      ensures store.docs == if ok then old(store.docs)[id := m] else old(store.docs)
      ensures store.index == if ok then old(store.index) + map p | p in IdsOf(m.pieces) :: id else old(store.index)
      ensures ok <==> Storable(old(store.docs), old(store.index), id, m)
    {
      ghost var docs, index := store.docs, store.index;
      ok := store.PutIndexed(id, m);
      if ok {
        StoreExtended(docs, index, chain.manifests, hash, id, m, store.index);
      }
    }

    /** Re-hashing what Postgres reads back. A stored manifest that survives storage passes;
        any other fails, short of a hash collision. */
    method VerifyIntegrity(id: Word) returns (ok: bool)
      requires Valid()
      ensures id !in store.docs ==> !ok
      ensures id in store.docs && Survives(store.docs[id], store.companyId) ==> ok
      ensures id in store.docs && ok && !Survives(store.docs[id], store.companyId) ==>
                && CanonicalForm(Hydrated(store.docs[id], store.companyId)) != CanonicalForm(store.docs[id])
                && hash(CanonicalForm(Hydrated(store.docs[id], store.companyId))) == hash(CanonicalForm(store.docs[id]))
    {
      if id !in store.docs { return false; }
      var m := store.docs[id];
      RereadKeepsForm(m, store.companyId);
      ok := ManifestId(hash, Hydrated(m, store.companyId)) == id;
    }
  }
}
