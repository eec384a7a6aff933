/**
 * What each verdict of the fork detector says about a piece's scans and the chain, written out:
 * which scans, under which manifests, in milliseconds and seconds.
 */
module ForkMeaning {
  import opened Wrappers
  import opened ByteStrings
  import opened Custody
  import opened ScanLog
  import opened ForkDetector

  /** Some loading or unloading scan of p names a manifest other than its home. */
  predicate ScannedInElsewhere(log: seq<ScanEvent>, p: PieceId, home: Word) {
    exists e :: e in log && e.pieceId == p && (e.context == Loading || e.context == Unloading)
                && e.manifestId.Some? && e.manifestId.value != home
  }

  /** Some scan of p, of any kind, names a manifest that is in custody now. */
  predicate NamedWhileMoving(log: seq<ScanEvent>, manifests: map<Word, Manifest>, p: PieceId, id: Word) {
    && id in manifests && manifests[id].status == InCustody
    && exists e :: e in log && e.pieceId == p && e.manifestId == Some(id)
  }

  ghost predicate TwoLives(log: seq<ScanEvent>, manifests: map<Word, Manifest>, p: PieceId) {
    exists a: Word, b: Word :: a != b && NamedWhileMoving(log, manifests, p, a) && NamedWhileMoving(log, manifests, p, b)
  }

  /** Some public or partner scan of p came more than a minute after delivery: scan times are in
      milliseconds, the chain's in seconds. */
  predicate SeenAfter(log: seq<ScanEvent>, p: PieceId, deliveredAt: UInt64) {
    exists e :: e in log && e.pieceId == p && (e.context == PublicVerify || e.context == Partner)
                && e.scannedAt > deliveredAt * 1000 + 60_000
  }

  predicate UnloadedAtHome(log: seq<ScanEvent>, p: PieceId, home: Word) {
    exists e :: e in log && e.pieceId == p && e.context == Unloading && e.manifestId == Some(home)
  }

  predicate Settled(manifests: map<Word, Manifest>, home: Word) {
    home in manifests && (manifests[home].status == Delivered || manifests[home].status == Short)
    && manifests[home].deliveredAt != 0
  }

  lemma MoreThanOneIff(s: set<Word>)
    ensures |s| > 1 <==> exists a, b :: a != b && a in s && b in s
  {
    if |s| > 1 {
      var a :| a in s;
      assert |s - {a}| == |s| - 1;
      var b :| b in s - {a};
    }
    if a, b :| a != b && a in s && b in s {
      CardinalityOf({a, b}, s);
    }
  }

  lemma TwoLivesIff(log: seq<ScanEvent>, manifests: map<Word, Manifest>, p: PieceId)
    ensures |ActiveSet(ByPiece(log, p), manifests)| > 1 <==> TwoLives(log, manifests, p)
  {
    var active := ActiveSet(ByPiece(log, p), manifests);
    MoreThanOneIff(active);
    forall id: Word ensures id in active <==> NamedWhileMoving(log, manifests, p, id) {
      if NamedWhileMoving(log, manifests, p, id) {
        var e :| e in log && e.pieceId == p && e.manifestId == Some(id);
        assert e in ByPiece(log, p);
      }
    }
  }

  lemma ElsewhereIff(log: seq<ScanEvent>, p: PieceId, home: Word)
    ensures HasForeign(ByPiece(log, p), home) <==> ScannedInElsewhere(log, p, home)
  {
    var own := ByPiece(log, p);
    if e :| e in own && Foreign(e, home) {
      assert e in log && (e.context == Loading || e.context == Unloading);
    }
    if e :| e in log && e.pieceId == p && (e.context == Loading || e.context == Unloading)
            && e.manifestId.Some? && e.manifestId.value != home {
      assert e in own && Foreign(e, home);
    }
  }

  lemma SeenAfterIff(log: seq<ScanEvent>, p: PieceId, deliveredAt: UInt64)
    ensures Sighted(ByPiece(log, p), deliveredAt) <==> SeenAfter(log, p, deliveredAt)
  {
    var own := ByPiece(log, p);
    if e :| e in own && LateSighting(e, deliveredAt) {
      assert e in log && (e.context == PublicVerify || e.context == Partner);
    }
    if e :| e in log && e.pieceId == p && (e.context == PublicVerify || e.context == Partner)
            && e.scannedAt > deliveredAt * 1000 + 60_000 {
      assert e in own && LateSighting(e, deliveredAt);
    }
  }

  /** Every verdict, for any log, index and chain: each exactly under its own condition. */
  lemma VerdictMeans(log: seq<ScanEvent>, index: PieceIndex, manifests: map<Word, Manifest>, p: PieceId)
    ensures var v := VerdictOf(log, index, manifests, p);
            && (v == UnknownPiece <==> p !in index)
            && (v == NotOnManifest <==> p in index && ScannedInElsewhere(log, p, index[p]))
            && (v == DuplicateLife <==>
                  p in index && !ScannedInElsewhere(log, p, index[p]) && TwoLives(log, manifests, p))
            && (v == PostClosureSighting <==>
                  && p in index && !ScannedInElsewhere(log, p, index[p]) && !TwoLives(log, manifests, p)
                  && Settled(manifests, index[p]) && SeenAfter(log, p, manifests[index[p]].deliveredAt)
                  && !UnloadedAtHome(log, p, index[p]))
  {
    if p in index {
      ElsewhereIff(log, p, index[p]);
      TwoLivesIff(log, manifests, p);
      ScannedIff(log, index[p], p);
      if index[p] in manifests {
        SeenAfterIff(log, p, manifests[index[p]].deliveredAt);
      }
    }
  }

  /** With what the dock routes and the public page write, the theft alarm needs no more than
      this: nothing elsewhere, a settled home, a sighting over a minute later, and no unloading. */
  lemma TheftAlarmIff(log: seq<ScanEvent>, index: PieceIndex, manifests: map<Word, Manifest>, p: PieceId)
    requires forall e :: e in log ==> e.context == Loading || e.context == Unloading || e.manifestId == None
    ensures VerdictOf(log, index, manifests, p) == PostClosureSighting <==>
              && p in index && !ScannedInElsewhere(log, p, index[p])
              && Settled(manifests, index[p]) && SeenAfter(log, p, manifests[index[p]].deliveredAt)
              && !UnloadedAtHome(log, p, index[p])
  {
    VerdictMeans(log, index, manifests, p);
    forall e | e in log ensures RouteWritten(e) {
    }
    RoutesNeverYieldDuplicateLife(log, index, manifests, p);
  }

  /** A public scan hours before the delivery is no alarm. */
  lemma EarlySightingIsClean(m: Manifest, home: Word, p: PieceId)
    requires m.status == Short && m.deliveredAt == 1_700_000_000
    ensures VerdictOf([ScanEvent(p, None, PublicVerify, 1_699_990_000_000, None)], map[p := home], map[home := m], p) == Clean
  {
    var e := ScanEvent(p, None, PublicVerify, 1_699_990_000_000, None);
    var log, index, manifests := [e], map[p := home], map[home := m];
    VerdictMeans(log, index, manifests, p);
    assert forall d :: d in log ==> d == e;
  }
}
