/**
 * The frozen canonical form a manifest id is the hash of. JSON text is kept as the structured
 * value it prints; piece ids compare by their rank in the id order.
 */
module CanonicalManifest {
  import opened Wrappers
  import opened ByteStrings
  import opened Sorting
  import opened ScanLog
  import opened Reconciliation
  import opened HexMerkle
  import opened ReleaseGate

  /** An optional field is None where the source has undefined, and null in the canonical form. */
  datatype Piece = Piece(id: PieceId, sku: Option<string>, weightKg: Option<real>)

  datatype Draft = Draft(
    tripId: ByteStrings.Word, bookingId: string, transporterId: string, pieceCount: nat, pieces: seq<Piece>,
    loader: string, driver: string, receiver: string, createdAt: string)

  datatype Canonical = Canonical(
    version: nat, trip: ByteStrings.Word, booking: string, transporter: string, count: nat, pieces: seq<Piece>,
    loader: string, driver: string, receiver: string, at: string)

  predicate ById(p: Piece, q: Piece) {
    p.id <= q.id
  }

  function IdsOf(pieces: seq<Piece>): (ids: seq<PieceId>)
    ensures |ids| == |pieces|
    ensures forall i :: 0 <= i < |pieces| ==> ids[i] == pieces[i].id
  {
    seq(|pieces|, i requires 0 <= i < |pieces| => pieces[i].id)
  }

  predicate IsHexAddress(s: string) {
    |s| == 42 && s[0] == '0' && s[1] == 'x' && forall i :: 2 <= i < 42 ==> IsHexDigit(s[i])
  }

  predicate UuidShape(s: string) {
    && |s| == 36 && s[8] == '-' && s[13] == '-' && s[18] == '-' && s[23] == '-'
    && forall i :: 0 <= i < 32 ==> IsHexDigit(s[Place(i)])
  }

  /** Where the i-th digit of a UUID text stands, past the hyphens before it. */
  function Place(i: nat): nat {
    if i < 8 then i else if i < 12 then i + 1 else if i < 16 then i + 2 else if i < 20 then i + 3 else i + 4
  }

  /** The schema's UUID text (RFC 9562): a version and a variant digit, or the nil or max UUID. */
  predicate IsUuid(s: string) {
    && UuidShape(s)
    && (('1' <= s[14] <= '8' && s[19] in "89abAB")
        || s == "00000000-0000-0000-0000-000000000000" || s == "ffffffff-ffff-ffff-ffff-ffffffffffff")
  }

  /** Equality of the database's uuid type: the letter case of the text does not matter. */
  predicate SameUuid(s: string, t: string) {
    ToLowerCase(s) == ToLowerCase(t)
  }

  function UuidDigits(s: string): (d: HexDigits)
    requires UuidShape(s)
    ensures |d| == 32 && forall i :: 0 <= i < 32 ==> d[i] == s[Place(i)]
  {
    seq(32, i requires 0 <= i < 32 => s[Place(i)])
  }

  /** The 128-bit number a UUID text writes. */
  function UuidValue(s: string): BookingId
    requires UuidShape(s)
  {
    Pow256Sixteen();
    BigEndian(Decode(UuidDigits(s)))
  }

  lemma {:induction false} LowerAt(s: string, i: nat)
    requires i < |s|
    ensures ToLowerCase(s)[i] == LowerChar(s[i])
  {
    if i > 0 {
      LowerAt(s[1..], i - 1);
    }
  }

  lemma SameLower(s: string, t: string)
    requires |s| == |t|
    ensures ToLowerCase(s) == ToLowerCase(t) <==> forall i :: 0 <= i < |s| ==> LowerChar(s[i]) == LowerChar(t[i])
  {
    forall i | 0 <= i < |s|
      ensures ToLowerCase(s)[i] == LowerChar(s[i]) && ToLowerCase(t)[i] == LowerChar(t[i])
    {
      LowerAt(s, i);
      LowerAt(t, i);
    }
  }

  /** The database takes two UUID texts for one value exactly when they write one number. */
  lemma SameUuidIff(s: string, t: string)
    requires UuidShape(s) && UuidShape(t)
    ensures SameUuid(s, t) <==> UuidValue(s) == UuidValue(t)
  {
    var d, e := UuidDigits(s), UuidDigits(t);
    SameLower(s, t);
    SameLower(d, e);
    HexOrderIsByteOrder(d, e);
    if UuidValue(s) == UuidValue(t) {
      BigEndianInjective(Decode(d), Decode(e));
      forall k | 0 <= k < 36 ensures LowerChar(s[k]) == LowerChar(t[k]) {
        if k != 8 && k != 13 && k != 18 && k != 23 {
          var i := DigitNumber(k);
          assert d[i] == s[k] && e[i] == t[k];
        }
      }
    }
  }

  function DigitNumber(k: nat): (i: nat)
    requires k < 36 && k != 8 && k != 13 && k != 18 && k != 23
    ensures i < 32 && Place(i) == k
  {
    if k < 8 then k else if k < 13 then k - 1 else if k < 18 then k - 2 else if k < 23 then k - 3 else k - 4
  }

  /** ManifestSchema: field shapes, count equal to the list's length, no repeated piece id. */
  predicate Schema(m: Draft) {
    && IsUuid(m.bookingId) && IsUuid(m.transporterId)
    && 1 <= m.pieceCount == |m.pieces| && NoRepeats(IdsOf(m.pieces))
    && (forall p :: p in m.pieces ==> (p.sku.Some? ==> |p.sku.value| <= 64) && (p.weightKg.Some? ==> p.weightKg.value > 0.0))
    && IsHexAddress(m.loader) && IsHexAddress(m.driver) && IsHexAddress(m.receiver)
  }

  predicate HexAt(s: string, i: int)
    requires 0 <= i < |s|
  {
    '0' <= s[i] <= '9' || 'a' <= s[i] <= 'f' || 'A' <= s[i] <= 'F'
  }

  /** "0x" and forty hex digits of either case. */
  predicate AddressText(s: string) {
    |s| == 42 && s[..2] == "0x" && forall i :: 2 <= i < 42 ==> HexAt(s, i)
  }

  /** Thirty-two hex digits with hyphens after the 8th, 12th, 16th and 20th; version 1 to 8 and an
      RFC 9562 variant, or all zeros, or all f. */
  predicate UuidText(s: string) {
    && |s| == 36 && s[8] == s[13] == s[18] == s[23] == '-'
    && (forall i :: 0 <= i < 36 && i != 8 && i != 13 && i != 18 && i != 23 ==> HexAt(s, i))
    && (('1' <= s[14] <= '8' && (s[19] == '8' || s[19] == '9' || s[19] == 'a' || s[19] == 'b' || s[19] == 'A' || s[19] == 'B'))
        || s == "00000000-0000-0000-0000-000000000000" || s == "ffffffff-ffff-ffff-ffff-ffffffffffff")
  }

  lemma UuidTextIff(s: string)
    ensures IsUuid(s) <==> UuidText(s)
  {
    if |s| == 36 {
      if UuidShape(s) {
        forall k | 0 <= k < 36 && k != 8 && k != 13 && k != 18 && k != 23 ensures HexAt(s, k) {
          assert IsHexDigit(s[Place(DigitNumber(k))]);
        }
      }
      if forall i :: 0 <= i < 36 && i != 8 && i != 13 && i != 18 && i != 23 ==> HexAt(s, i) {
        forall i | 0 <= i < 32 ensures IsHexDigit(s[Place(i)]) {
          assert HexAt(s, Place(i));
        }
      }
    }
  }

  lemma AddressTextIff(s: string)
    ensures IsHexAddress(s) <==> AddressText(s)
  {
    if |s| == 42 {
      assert s[..2] == [s[0], s[1]];
      assert forall i :: 2 <= i < 42 ==> (HexAt(s, i) <==> IsHexDigit(s[i]));
    }
  }

  lemma DifferentIdsIff(pieces: seq<Piece>)
    ensures NoRepeats(IdsOf(pieces)) <==> forall i, j :: 0 <= i < j < |pieces| ==> pieces[i].id != pieces[j].id
  {
    if NoRepeats(IdsOf(pieces)) {
      forall i, j | 0 <= i < j < |pieces| ensures pieces[i].id != pieces[j].id {
        assert IdsOf(pieces)[i] != IdsOf(pieces)[j];
      }
    }
  }

  /** What the schema admits, field by field. */
  lemma SchemaMeans(m: Draft)
    ensures Schema(m) <==>
              && UuidText(m.bookingId) && UuidText(m.transporterId)
              && m.pieceCount == |m.pieces| > 0
              && (forall i, j :: 0 <= i < j < |m.pieces| ==> m.pieces[i].id != m.pieces[j].id)
              && (forall p :: p in m.pieces && p.sku.Some? ==> |p.sku.value| <= 64)
              && (forall p :: p in m.pieces && p.weightKg.Some? ==> p.weightKg.value > 0.0)
              && AddressText(m.loader) && AddressText(m.driver) && AddressText(m.receiver)
  {
    UuidTextIff(m.bookingId);
    UuidTextIff(m.transporterId);
    AddressTextIff(m.loader);
    AddressTextIff(m.driver);
    AddressTextIff(m.receiver);
    DifferentIdsIff(m.pieces);
  }

  /** canonicalManifest: pieces in id order, addresses in lower case. */
  function CanonicalForm(m: Draft): Canonical {
    Canonical(1, m.tripId, m.bookingId, m.transporterId, m.pieceCount, Sort(ById, m.pieces),
              ToLowerCase(m.loader), ToLowerCase(m.driver), ToLowerCase(m.receiver), m.createdAt)
  }

  /** The frozen form field by field: each field where it belongs, the pieces a permutation in id
      order, the addresses character by character in lower case. */
  lemma FormMeans(m: Draft)
    ensures var f := CanonicalForm(m);
            && f.version == 1 && f.trip == m.tripId && f.booking == m.bookingId && f.transporter == m.transporterId
            && f.count == m.pieceCount && f.at == m.createdAt
            && multiset(f.pieces) == multiset(m.pieces)
            && (forall i, j :: 0 <= i < j < |f.pieces| ==> f.pieces[i].id <= f.pieces[j].id)
            && Lowered(f.loader, m.loader) && Lowered(f.driver, m.driver) && Lowered(f.receiver, m.receiver)
  {
    ByIdIsOrder();
    SortSpec(ById, m.pieces);
    var f := CanonicalForm(m);
    assert forall i, j :: 0 <= i < j < |f.pieces| ==> ById(f.pieces[i], f.pieces[j]);
    LowerIsLowered(m.loader);
    LowerIsLowered(m.driver);
    LowerIsLowered(m.receiver);
  }

  /** Capital letters are replaced by small ones, and nothing else changes. */
  predicate Lowered(t: string, s: string) {
    && |t| == |s|
    && forall i :: 0 <= i < |s| ==> t[i] == if 'A' <= s[i] <= 'Z' then s[i] - 'A' + 'a' else s[i]
  }

  lemma LowerIsLowered(s: string)
    ensures Lowered(ToLowerCase(s), s)
  {
    forall i | 0 <= i < |s| ensures ToLowerCase(s)[i] == if 'A' <= s[i] <= 'Z' then s[i] - 'A' + 'a' else s[i] {
      LowerAt(s, i);
    }
  }

  /** The same manifest, up to the order of its pieces and the letter case of its addresses. */
  predicate SameManifest(m: Draft, n: Draft) {
    && multiset(m.pieces) == multiset(n.pieces)
    && m.tripId == n.tripId && m.bookingId == n.bookingId && m.transporterId == n.transporterId
    && m.pieceCount == n.pieceCount && m.createdAt == n.createdAt
    && ToLowerCase(m.loader) == ToLowerCase(n.loader)
    && ToLowerCase(m.driver) == ToLowerCase(n.driver)
    && ToLowerCase(m.receiver) == ToLowerCase(n.receiver)
  }

  lemma ByIdIsOrder()
    ensures TotalPreorder(ById)
  {
  }

  /** With distinct ids no two pieces tie. */
  lemma DistinctIdsAreStrict(pieces: seq<Piece>)
    requires NoRepeats(IdsOf(pieces))
    ensures Strict(ById, pieces)
  {
    forall x, y | x in pieces && y in pieces && ById(x, y) && ById(y, x) ensures x == y {
      var i :| 0 <= i < |pieces| && pieces[i] == x;
      var j :| 0 <= j < |pieces| && pieces[j] == y;
      assert IdsOf(pieces)[i] == IdsOf(pieces)[j];
    }
  }

  lemma StrictOfPermutation(s: seq<Piece>, t: seq<Piece>)
    requires multiset(s) == multiset(t) && Strict(ById, s)
    ensures Strict(ById, t)
  {
    forall x, y | x in t && y in t && ById(x, y) && ById(y, x) ensures x == y {
      assert x in multiset(s) && y in multiset(s);
    }
  }

  /** Piece order cannot matter when ids are distinct. */
  lemma PermutationsSortAlike(s: seq<Piece>, t: seq<Piece>)
    requires NoRepeats(IdsOf(s)) && multiset(s) == multiset(t)
    ensures Sort(ById, s) == Sort(ById, t)
  {
    ByIdIsOrder();
    SortSpec(ById, s);
    SortSpec(ById, t);
    DistinctIdsAreStrict(s);
    StrictOfPermutation(s, Sort(ById, s));
    SortedUnique(ById, Sort(ById, s), Sort(ById, t));
  }

  /** Two valid manifests have one canonical form exactly when they are the same manifest. */
  lemma CanonicalIff(m: Draft, n: Draft)
    requires Schema(m) && Schema(n)
    ensures CanonicalForm(m) == CanonicalForm(n) <==> SameManifest(m, n)
  {
    if SameManifest(m, n) {
      PermutationsSortAlike(m.pieces, n.pieces);
    }
    if CanonicalForm(m) == CanonicalForm(n) {
      ByIdIsOrder();
      SortSpec(ById, m.pieces);
      SortSpec(ById, n.pieces);
    }
  }

  /** The id for a given hash of canonical text. */
  function ManifestId(hash: Canonical -> ByteStrings.Word, m: Draft): ByteStrings.Word {
    hash(CanonicalForm(m))
  }

  /** No silent edits: manifests that differ in anything but piece order and letter case get
      different ids, or exhibit a collision of the hash. */
  lemma EditChangesId(hash: Canonical -> ByteStrings.Word, m: Draft, n: Draft)
    requires Schema(m) && Schema(n)
    ensures SameManifest(m, n) ==> ManifestId(hash, m) == ManifestId(hash, n)
    ensures !SameManifest(m, n) ==>
              || ManifestId(hash, m) != ManifestId(hash, n)
              || (CanonicalForm(m) != CanonicalForm(n) && hash(CanonicalForm(m)) == hash(CanonicalForm(n)))
  {
    CanonicalIff(m, n);
  }

  /** The schema is needed for that: with a repeated id, the order of two pieces shows. */
  lemma RepeatedIdsShowOrder(m: Draft, a: Piece, b: Piece)
    requires a.id == b.id && a != b && m.pieces == [a, b]
    ensures SameManifest(m, m.(pieces := [b, a])) && CanonicalForm(m) != CanonicalForm(m.(pieces := [b, a]))
  {
    assert multiset([a, b]) == multiset([b, a]);
    assert [a, b][1..] == [b] && [b, a][1..] == [a];
    assert Sort(ById, [a]) == [a] && Sort(ById, [b]) == [b];
    assert Sort(ById, [a, b]) == [a, b] && Sort(ById, [b, a]) == [b, a];
  }

  /** The part of a stored manifest that reconciliation and payouts read. */
  function DocOf(m: Draft): Doc
    requires UuidShape(m.bookingId) && UuidShape(m.transporterId)
  {
    Doc(UuidValue(m.bookingId), UuidValue(m.transporterId), IdsOf(m.pieces))
  }

  // ---------------------------------------------------------------- integrity of a stored manifest

  /** What the Postgres store reads back: piece rows are written with their ids alone. */
  function Bare(pieces: seq<Piece>): (bare: seq<Piece>)
    ensures |bare| == |pieces|
    ensures forall i :: 0 <= i < |pieces| ==> bare[i] == Piece(pieces[i].id, None, None)
  {
    seq(|pieces|, i requires 0 <= i < |pieces| => Piece(pieces[i].id, None, None))
  }

  /** A stored manifest read back: uuid columns print in lower case, and the transporter is
      the company that wrote the row. */
  function Hydrated(m: Draft, company: string): Draft {
    m.(pieces := Bare(m.pieces), bookingId := ToLowerCase(m.bookingId), transporterId := ToLowerCase(company))
  }

  /** What a row has to be for its manifest to survive storage. */
  predicate Survives(m: Draft, company: string) {
    && (forall p :: p in m.pieces ==> p.sku == None && p.weightKg == None)
    && m.bookingId == ToLowerCase(m.bookingId) && m.transporterId == ToLowerCase(company)
  }

  lemma {:induction false} BareSame(pieces: seq<Piece>)
    ensures Bare(pieces) == pieces <==> forall p :: p in pieces ==> p.sku == None && p.weightKg == None
  {
    if forall p :: p in pieces ==> p.sku == None && p.weightKg == None {
      forall i | 0 <= i < |pieces| ensures Bare(pieces)[i] == pieces[i] {
        assert pieces[i] in pieces;
      }
    }
    if Bare(pieces) == pieces {
      forall p | p in pieces ensures p.sku == None && p.weightKg == None {
        var i :| 0 <= i < |pieces| && pieces[i] == p;
      }
    }
  }

  lemma BareMember(pieces: seq<Piece>, p: Piece)
    requires p in Bare(pieces)
    ensures p.sku == None && p.weightKg == None
  {
  }

  /** Re-hashing a manifest read back from Postgres reproduces its form exactly when no piece
      carries an sku or a weight, the booking id was given in lower case, and the transporter
      id is the writing company's in lower case: any other untouched row looks edited. */
  lemma RereadKeepsForm(m: Draft, company: string)
    requires Schema(m)
    ensures CanonicalForm(Hydrated(m, company)) == CanonicalForm(m) <==> Survives(m, company)
  {
    BareSame(m.pieces);
    if Survives(m, company) {
      assert Hydrated(m, company) == m;
    }
    if CanonicalForm(Hydrated(m, company)) == CanonicalForm(m) {
      SortedAlikeBare(m.pieces);
    }
  }

  lemma SortedAlikeBare(pieces: seq<Piece>)
    requires Sort(ById, Bare(pieces)) == Sort(ById, pieces)
    ensures forall p :: p in pieces ==> p.sku == None && p.weightKg == None
  {
    ByIdIsOrder();
    SortSpec(ById, pieces);
    SortSpec(ById, Bare(pieces));
    forall p | p in pieces ensures p.sku == None && p.weightKg == None {
      assert p in multiset(pieces) && multiset(pieces) == multiset(Bare(pieces));
      BareMember(pieces, p);
    }
  }
}
