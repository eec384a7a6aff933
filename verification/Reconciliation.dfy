/** Scanned set against manifest set: the counts receivers sign and payouts depend on. */
module Reconciliation {
  import opened ByteStrings
  import opened Seqs
  import opened ScanLog

  datatype ReconcileResult = ReconcileResult(
    expected: nat, scanned: nat, missing: nat, extra: nat, complete: bool,
    missingPieceIds: seq<PieceId>, offManifestPieceIds: seq<PieceId>, duplicateScans: nat)

  /** The distinct ids of a list, in order of first appearance (a JavaScript Set). */
  function Distinct(ids: seq<PieceId>): seq<PieceId> {
    if |ids| == 0 then []
    else
      var before := Distinct(ids[..|ids| - 1]);
      if ids[|ids| - 1] in before then before else before + [ids[|ids| - 1]]
  }

  function Without(ids: seq<PieceId>, gone: seq<PieceId>): seq<PieceId> {
    if |ids| == 0 then []
    else
      var before := Without(ids[..|ids| - 1], gone);
      if ids[|ids| - 1] in gone then before else before + [ids[|ids| - 1]]
  }

  function PieceIds(events: seq<ScanEvent>): (ids: seq<PieceId>)
    ensures |ids| == |events|
    ensures forall i :: 0 <= i < |events| ==> ids[i] == events[i].pieceId
  {
    seq(|events|, i requires 0 <= i < |events| => events[i].pieceId)
  }

  /** What reconcile computes from a manifest's pieces and its unloading scans. */
  function ReconcileOf(pieceCount: nat, pieces: seq<PieceId>, events: seq<ScanEvent>): ReconcileResult {
    var expected := Distinct(pieces);
    var scanned := Distinct(PieceIds(events));
    var missing := Without(expected, scanned);
    var off := Without(scanned, expected);
    WithoutSpec(scanned, expected);
    ReconcileResult(pieceCount, |scanned| - |off|, |missing|, |off|, |missing| == 0 && |off| == 0,
                    missing, off, |events| - DistinctCount(PieceIds(events)))
  }

  function DistinctCount(ids: seq<PieceId>): (n: nat)
    ensures n == |Distinct(ids)| <= |ids|
  {
    DistinctSpec(ids);
    |Distinct(ids)|
  }

  predicate NoRepeats(ids: seq<PieceId>) {
    forall i, j :: 0 <= i < j < |ids| ==> ids[i] != ids[j]
  }

  function Members(ids: seq<PieceId>): set<PieceId> {
    set i | i in ids
  }

  lemma MembersSnoc(ids: seq<PieceId>, last: PieceId)
    ensures Members(ids + [last]) == Members(ids) + {last}
  {
  }

  lemma MembersSplit(ids: seq<PieceId>)
    requires |ids| > 0
    ensures Members(ids) == Members(ids[..|ids| - 1]) + {ids[|ids| - 1]}
  {
    assert ids == ids[..|ids| - 1] + [ids[|ids| - 1]];
    MembersSnoc(ids[..|ids| - 1], ids[|ids| - 1]);
  }

  lemma {:induction false} DistinctSpec(ids: seq<PieceId>)
    ensures NoRepeats(Distinct(ids)) && Members(Distinct(ids)) == Members(ids)
    ensures |Distinct(ids)| <= |ids|
  {
    if |ids| > 0 {
      DistinctSpec(ids[..|ids| - 1]);
      MembersSplit(ids);
      MembersSnoc(Distinct(ids[..|ids| - 1]), ids[|ids| - 1]);
    }
  }

  lemma {:induction false} WithoutSpec(ids: seq<PieceId>, gone: seq<PieceId>)
    ensures Members(Without(ids, gone)) == Members(ids) - Members(gone)
    ensures |Without(ids, gone)| <= |ids|
  {
    if |ids| > 0 {
      WithoutSpec(ids[..|ids| - 1], gone);
      MembersSplit(ids);
      MembersSnoc(Without(ids[..|ids| - 1], gone), ids[|ids| - 1]);
    }
  }

  lemma {:induction false} WithoutNoRepeats(ids: seq<PieceId>, gone: seq<PieceId>)
    requires NoRepeats(ids)
    ensures NoRepeats(Without(ids, gone))
  {
    if |ids| > 0 {
      var init := ids[..|ids| - 1];
      WithoutNoRepeats(init, gone);
      WithoutSpec(init, gone);
      assert ids[|ids| - 1] !in Members(init);
      assert ids[|ids| - 1] !in Members(Without(init, gone));
    }
  }

  lemma {:induction false} NoRepeatsCount(ids: seq<PieceId>)
    requires NoRepeats(ids)
    ensures |Members(ids)| == |ids|
  {
    if |ids| > 0 {
      NoRepeatsCount(ids[..|ids| - 1]);
      MembersSplit(ids);
    }
  }

  /** The result in terms of sets, for any scan list and any manifest. */
  lemma ReconcileMeaning(pieceCount: nat, pieces: seq<PieceId>, events: seq<ScanEvent>)
    ensures var r := ReconcileOf(pieceCount, pieces, events);
            var expected, scanned := Members(pieces), Members(PieceIds(events));
            && Members(r.missingPieceIds) == expected - scanned && r.missing == |expected - scanned|
            && Members(r.offManifestPieceIds) == scanned - expected && r.extra == |scanned - expected|
            && r.scanned == |scanned * expected|
            && (r.complete <==> scanned == expected)
            && r.duplicateScans == |events| - |scanned| && r.expected == pieceCount
  {
    var e, s := Distinct(pieces), Distinct(PieceIds(events));
    DistinctSpec(pieces);
    DistinctSpec(PieceIds(events));
    WithoutSpec(e, s);
    WithoutSpec(s, e);
    NoRepeatsCount(e);
    NoRepeatsCount(s);
    WithoutNoRepeats(e, s);
    WithoutNoRepeats(s, e);
    NoRepeatsCount(Without(e, s));
    NoRepeatsCount(Without(s, e));
    SetParts(Members(s), Members(e));
  }

  /** Nothing is missing exactly when every expected piece was scanned. */
  lemma NoneMissing(pieceCount: nat, pieces: seq<PieceId>, events: seq<ScanEvent>)
    ensures ReconcileOf(pieceCount, pieces, events).missing == 0 <==> Members(pieces) <= Members(PieceIds(events))
  {
    ReconcileMeaning(pieceCount, pieces, events);
    NoneLeft(Members(pieces), Members(PieceIds(events)));
  }

  /** Nothing is extra exactly when every scanned piece was expected. */
  lemma NoneExtra(pieceCount: nat, pieces: seq<PieceId>, events: seq<ScanEvent>)
    ensures ReconcileOf(pieceCount, pieces, events).extra == 0 <==> Members(PieceIds(events)) <= Members(pieces)
  {
    ReconcileMeaning(pieceCount, pieces, events);
    NoneLeft(Members(PieceIds(events)), Members(pieces));
  }

  lemma NoneLeft(e: set<PieceId>, s: set<PieceId>)
    ensures |e - s| == 0 <==> e <= s
  {
    if |e - s| == 0 {
      forall p | p in e ensures p in s {
        assert p !in e - s;
      }
    }
  }

  lemma SameSizeSubset(a: set<PieceId>, b: set<PieceId>)
    requires a <= b && |a| == |b|
    ensures a == b
  {
    if x :| x in b && x !in a {
      SubsetSize(a, b - {x});
    }
  }

  lemma {:induction false} SubsetSize(a: set<PieceId>, b: set<PieceId>)
    requires a <= b
    ensures |a| <= |b|
  {
    if a != {} {
      var k :| k in a;
      SubsetSize(a - {k}, b - {k});
    }
  }

  lemma SetParts(s: set<PieceId>, e: set<PieceId>)
    ensures |s * e| == |s| - |s - e|
    ensures |e - s| == 0 && |s - e| == 0 <==> s == e
  {
    assert s == (s * e) + (s - e);
  }

  /** The signed count never exceeds a valid manifest's piece count, and equals it exactly
      when nothing is missing. */
  lemma ScannedCountBounded(pieces: seq<PieceId>, events: seq<ScanEvent>)
    requires NoRepeats(pieces)
    ensures var r := ReconcileOf(|pieces|, pieces, events);
            r.scanned + r.missing == |pieces| && r.scanned <= r.expected
  {
    ReconcileMeaning(|pieces|, pieces, events);
    NoRepeatsCount(pieces);
    var e, s := Members(pieces), Members(PieceIds(events));
    assert e == (s * e) + (e - s);
  }

  lemma ScannedIsMembers(log: seq<ScanEvent>, manifestId: Word, context: Context)
    ensures Members(PieceIds(ByManifest(log, manifestId, context))) == Scanned(log, manifestId, context)
  {
    var events := ByManifest(log, manifestId, context);
    forall p ensures p in Members(PieceIds(events)) <==> p in Scanned(log, manifestId, context) {
      if p in Scanned(log, manifestId, context) {
        var e :| e in events && e.pieceId == p;
        var i :| 0 <= i < |events| && events[i] == e;
        assert PieceIds(events)[i] == p;
      }
    }
  }

  /** The counting loop. */
  method Reconcile(pieceCount: nat, pieces: seq<PieceId>, events: seq<ScanEvent>) returns (r: ReconcileResult)
    ensures r == ReconcileOf(pieceCount, pieces, events)
  {
    var expectedIds := Distinct(pieces);
    var scannedIds := [];
    var duplicateScans := 0;
    ghost var ids := PieceIds(events);
    for i := 0 to |events|
      invariant scannedIds == Distinct(ids[..i])
      invariant duplicateScans == i - |scannedIds|
    {
      assert ids[..i + 1][..i] == ids[..i];
      if events[i].pieceId in scannedIds {
        duplicateScans := duplicateScans + 1;
      } else {
        scannedIds := scannedIds + [events[i].pieceId];
      }
    }
    TakeAll(ids);
    var missing := Without(expectedIds, scannedIds);
    var off := Without(scannedIds, expectedIds);
    WithoutSpec(scannedIds, expectedIds);
    return ReconcileResult(pieceCount, |scannedIds| - |off|, |missing|, |off|, |missing| == 0 && |off| == 0,
                           missing, off, duplicateScans);
  }
}
