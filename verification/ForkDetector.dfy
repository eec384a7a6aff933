/** The fork detector: what a piece's append-only history says about clones and resurfaced originals. */
module ForkDetector {
  import opened Wrappers
  import opened ByteStrings
  import opened Seqs
  import opened Custody
  import opened Handoff
  import opened ScanLog

  datatype Verdict = UnknownPiece | NotOnManifest | DuplicateLife | PostClosureSighting | Clean

  datatype Analysis = Analysis(
    pieceId: PieceId, verdict: Verdict, severity: Severity, manifestIds: seq<Word>, timeline: seq<ScanEvent>,
    attribution: Option<Attribution>)

  const GRACE_MS := 60_000

  /** The piece index minted with each manifest: piece id to home manifest. */
  type PieceIndex = map<PieceId, Word>

  predicate Dock(e: ScanEvent) {
    e.context == Loading || e.context == Unloading
  }

  /** A dock scan under a manifest the piece does not belong to. */
  predicate Foreign(e: ScanEvent, home: Word) {
    e.manifestId.Some? && e.manifestId.value != home && Dock(e)
  }

  predicate LateSighting(e: ScanEvent, deliveredAt: UInt64) {
    e.scannedAt > deliveredAt * 1000 + GRACE_MS && !Dock(e)
  }

  predicate IsActive(manifests: map<Word, Manifest>, id: Word) {
    id in manifests && manifests[id].status == InCustody
  }

  /** The manifests a history names, each once, in order of appearance. */
  function ManifestIds(history: seq<ScanEvent>): (ids: seq<Word>)
    ensures forall id :: id in ids <==> exists e :: e in history && e.manifestId == Some(id)
    ensures forall j, k :: 0 <= j < k < |ids| ==> ids[j] != ids[k]
  {
    if |history| == 0 then []
    else
      var before := ManifestIds(history[..|history| - 1]);
      var last := history[|history| - 1];
      assert history == history[..|history| - 1] + [last];
      if last.manifestId.None? || last.manifestId.value in before then before else before + [last.manifestId.value]
  }

  function ActiveIn(manifests: map<Word, Manifest>, ids: seq<Word>): (active: seq<Word>)
    ensures forall id :: id in active <==> id in ids && IsActive(manifests, id)
  {
    if |ids| == 0 then []
    else
      var before := ActiveIn(manifests, ids[..|ids| - 1]);
      var last := ids[|ids| - 1];
      assert ids == ids[..|ids| - 1] + [last];
      if IsActive(manifests, last) then before + [last] else before
  }

  /** The manifests a history names that are in custody right now. */
  function ActiveSet(history: seq<ScanEvent>, manifests: map<Word, Manifest>): set<Word> {
    set e | e in history && e.manifestId.Some? && IsActive(manifests, e.manifestId.value) :: e.manifestId.value
  }

  function ActiveOf(manifests: map<Word, Manifest>, ids: seq<Word>): set<Word> {
    set id | id in ids && IsActive(manifests, id)
  }

  lemma ActiveOfSnoc(manifests: map<Word, Manifest>, before: seq<Word>, last: Word)
    ensures ActiveOf(manifests, before + [last])
            == ActiveOf(manifests, before) + if IsActive(manifests, last) then {last} else {}
  {
  }

  lemma {:induction false} ActiveInCount(manifests: map<Word, Manifest>, ids: seq<Word>)
    requires forall j, k :: 0 <= j < k < |ids| ==> ids[j] != ids[k]
    ensures |ActiveIn(manifests, ids)| == |ActiveOf(manifests, ids)|
  {
    if |ids| > 0 {
      var before, last := ids[..|ids| - 1], ids[|ids| - 1];
      ActiveInCount(manifests, before);
      assert ids == before + [last];
      ActiveOfSnoc(manifests, before, last);
      assert last !in before;
    }
  }

  /** The listed manifests in custody are as many as there are, whatever order the history is in. */
  lemma ActiveCount(manifests: map<Word, Manifest>, log: seq<ScanEvent>, p: PieceId)
    ensures |ActiveIn(manifests, ManifestIds(History(log, p)))| == |ActiveSet(ByPiece(log, p), manifests)|
  {
    var ids := ManifestIds(History(log, p));
    HistoryIsWhole(log, p);
    ActiveInCount(manifests, ids);
    var active := ActiveOf(manifests, ids);
    forall id ensures id in active <==> id in ActiveSet(ByPiece(log, p), manifests) {
      if id in active {
        var e :| e in History(log, p) && e.manifestId == Some(id);
        assert e in ByPiece(log, p);
      }
    }
    assert active == ActiveSet(ByPiece(log, p), manifests);
  }

  predicate HasForeign(history: seq<ScanEvent>, home: Word) {
    exists e :: e in history && Foreign(e, home)
  }

  predicate Sighted(history: seq<ScanEvent>, deliveredAt: UInt64) {
    exists e :: e in history && LateSighting(e, deliveredAt)
  }

  /** The home manifest is settled and its delivery time known. */
  predicate Closed(manifests: map<Word, Manifest>, home: Word) {
    home in manifests && (manifests[home].status == Delivered || manifests[home].status == Short)
    && manifests[home].deliveredAt != 0
  }

  /** The verdict on a piece, given the log, its home and the chain. */
  function VerdictOf(log: seq<ScanEvent>, index: PieceIndex, manifests: map<Word, Manifest>, p: PieceId): Verdict {
    var history := ByPiece(log, p);
    if p !in index then UnknownPiece
    else if HasForeign(history, index[p]) then NotOnManifest
    else if |ActiveSet(history, manifests)| > 1 then DuplicateLife
    else if Closed(manifests, index[p]) && Sighted(history, manifests[index[p]].deliveredAt)
            && p !in Scanned(log, index[p], Unloading) then PostClosureSighting
    else Clean
  }

  // ---------------------------------------------------------------- verdicts

  /** The verdict read off the history in time order, as the detector reads it. */
  lemma VerdictInTimeOrder(log: seq<ScanEvent>, p: PieceId, home: Word, at: UInt64)
    ensures HasForeign(History(log, p), home) == HasForeign(ByPiece(log, p), home)
    ensures Sighted(History(log, p), at) == Sighted(ByPiece(log, p), at)
  {
    HistoryIsWhole(log, p);
    var history, own := History(log, p), ByPiece(log, p);
    assert forall e :: e in history <==> e in own;
  }

  /** Dock scans under two manifests always raise an alarm, whatever else happened. */
  lemma TwoDockManifestsNeverClean(log: seq<ScanEvent>, index: PieceIndex, manifests: map<Word, Manifest>,
                                   a: ScanEvent, b: ScanEvent)
    requires a in log && b in log && a.pieceId == b.pieceId && Dock(a) && Dock(b)
    requires a.manifestId.Some? && b.manifestId.Some? && a.manifestId != b.manifestId
    ensures VerdictOf(log, index, manifests, a.pieceId)
            == if a.pieceId in index then NotOnManifest else UnknownPiece
  {
    if a.pieceId in index {
      var history := ByPiece(log, a.pieceId);
      assert a in history && b in history;
      assert Foreign(a, index[a.pieceId]) || Foreign(b, index[a.pieceId]);
    }
  }

  lemma ByPieceGrows(log: seq<ScanEvent>, longer: seq<ScanEvent>, p: PieceId)
    requires log <= longer
    ensures forall e :: e in ByPiece(log, p) ==> e in ByPiece(longer, p)
  {
    forall e | e in ByPiece(log, p) ensures e in ByPiece(longer, p) {
      var i :| 0 <= i < |log| && log[i] == e;
      assert longer[i] == e;
    }
  }

  /** NOT_ON_MANIFEST is permanent: no later scan and no chain event takes it back. */
  lemma NotOnManifestIsPermanent(log: seq<ScanEvent>, longer: seq<ScanEvent>, index: PieceIndex,
                                 before: map<Word, Manifest>, after: map<Word, Manifest>, p: PieceId)
    requires log <= longer && VerdictOf(log, index, before, p) == NotOnManifest
    ensures VerdictOf(longer, index, after, p) == NotOnManifest
  {
    ByPieceGrows(log, longer, p);
  }

  /** What the dock routes and the public page write: a public scan names no manifest. */
  predicate RouteWritten(e: ScanEvent) {
    Dock(e) || e.manifestId.None?
  }

  /** DUPLICATE_LIFE needs a scan that is neither from a dock nor anonymous: two manifests can
      only both be named without a foreign dock scan when a sighting names one. */
  lemma DuplicateLifeNeedsNamedSighting(log: seq<ScanEvent>, index: PieceIndex, manifests: map<Word, Manifest>, p: PieceId)
    requires VerdictOf(log, index, manifests, p) == DuplicateLife
    ensures exists e :: e in log && e.pieceId == p && !RouteWritten(e) && e.manifestId != Some(index[p])
  {
    var history := ByPiece(log, p);
    var active := ActiveSet(history, manifests);
    var other :| other in active - {index[p]} by {
      if active - {index[p]} == {} {
        assert active <= {index[p]};
        AtMostOne(active, index[p]);
      }
    }
    var e :| e in history && e.manifestId == Some(other);
    assert !Foreign(e, index[p]);
  }

  lemma AtMostOne(s: set<Word>, home: Word)
    requires s <= {home}
    ensures |s| <= 1
  {
    assert s == {} || s == {home};
  }

  /** So with the routes the platform has, DUPLICATE_LIFE is never returned. */
  lemma RoutesNeverYieldDuplicateLife(log: seq<ScanEvent>, index: PieceIndex, manifests: map<Word, Manifest>, p: PieceId)
    requires forall e :: e in log ==> RouteWritten(e)
    ensures VerdictOf(log, index, manifests, p) != DuplicateLife
  {
    if VerdictOf(log, index, manifests, p) == DuplicateLife {
      DuplicateLifeNeedsNamedSighting(log, index, manifests, p);
    }
  }

  /** A partner that does name a manifest can trigger it: the branch is alive, the routes are not. */
  lemma NamedSightingYieldsDuplicateLife(m: Manifest, home: Word, other: Word, p: PieceId)
    requires home != other && m.status == InCustody
    ensures var log := [ScanEvent(p, Some(home), Loading, 0, None), ScanEvent(p, Some(other), Partner, 1, None)];
            VerdictOf(log, map[p := home], map[home := m, other := m], p) == DuplicateLife
  {
    var log := [ScanEvent(p, Some(home), Loading, 0, None), ScanEvent(p, Some(other), Partner, 1, None)];
    var manifests := map[home := m, other := m];
    var history := ByPiece(log, p);
    assert log[0] in history && log[1] in history;
    var active := ActiveSet(history, manifests);
    assert {home, other} <= active;
    CardinalityOf({home, other}, active);
  }

  lemma CardinalityOf(s: set<Word>, t: set<Word>)
    requires s <= t
    ensures |s| <= |t|
  {
    assert t == s + (t - s);
  }

  // ---------------------------------------------------------------- sightings

  /** An anonymous public scan changes no verdict except to reveal a resurfaced original. */
  lemma PublicScanOnlyReveals(log: seq<ScanEvent>, index: PieceIndex, manifests: map<Word, Manifest>,
                              e: ScanEvent, p: PieceId)
    requires !Dock(e) && e.manifestId.None?
    ensures var before, after := VerdictOf(log, index, manifests, p), VerdictOf(log + [e], index, manifests, p);
            after != before ==> before == Clean && after == PostClosureSighting && e.pieceId == p
  {
    SnocHistory(log, e, p);
    SnocScanned(log, e);
    var history := ByPiece(log, p);
    if e.pieceId == p {
      assert e in history + [e];
      assert forall d :: d in history ==> d in history + [e];
      assert forall d :: d in history + [e] ==> d in history || d == e;
      assert ActiveSet(history + [e], manifests) == ActiveSet(history, manifests);
      if p in index {
        assert HasForeign(history, index[p]) <==> HasForeign(history + [e], index[p]);
      }
    }
  }

  lemma SnocHistory(log: seq<ScanEvent>, e: ScanEvent, p: PieceId)
    ensures ByPiece(log + [e], p) == if e.pieceId == p then ByPiece(log, p) + [e] else ByPiece(log, p)
  {
    assert (log + [e])[..|log|] == log;
  }

  lemma SnocScanned(log: seq<ScanEvent>, e: ScanEvent)
    requires e.context != Unloading
    ensures forall id :: Scanned(log + [e], id, Unloading) == Scanned(log, id, Unloading)
  {
    assert (log + [e])[..|log|] == log;
  }

  predicate UnloadedAt(log: seq<ScanEvent>, home: Word, p: PieceId) {
    exists e :: e in log && e.pieceId == p && e.manifestId == Some(home) && e.context == Unloading
  }

  lemma ScannedIff(log: seq<ScanEvent>, home: Word, p: PieceId)
    ensures p in Scanned(log, home, Unloading) <==> UnloadedAt(log, home, p)
  {
    if p in Scanned(log, home, Unloading) {
      var e :| e in ByManifest(log, home, Unloading) && e.pieceId == p;
      assert e in log;
    }
    if e :| e in log && e.pieceId == p && e.manifestId == Some(home) && e.context == Unloading {
      assert e in ByManifest(log, home, Unloading);
    }
  }

  /** A theft alarm and what later scans and contract calls do to it, all scans from the
      routes: it stands exactly if the home manifest is not disputed and every dock scan of
      the piece is a loading scan at home. It turns into CLEAN exactly if no dock scan is
      foreign and the home is disputed, or the piece is scanned in there after the fact. */
  lemma SightingStandsUnless(log: seq<ScanEvent>, longer: seq<ScanEvent>, index: PieceIndex,
                             before: map<Word, Manifest>, after: map<Word, Manifest>, p: PieceId)
    requires log <= longer && forall e :: e in longer ==> RouteWritten(e)
    requires VerdictOf(log, index, before, p) == PostClosureSighting
    requires index[p] in after && Consistent(before[index[p]]) && Follows(before[index[p]], after[index[p]])
    ensures VerdictOf(longer, index, after, p) == PostClosureSighting <==>
              && after[index[p]].status != Disputed
              && forall e :: e in longer && e.pieceId == p && Dock(e) && e.manifestId.Some? ==>
                   e.manifestId.value == index[p] && e.context == Loading
    ensures VerdictOf(longer, index, after, p) == Clean <==>
              && (forall e :: e in longer && e.pieceId == p ==> !Foreign(e, index[p]))
              && (after[index[p]].status == Disputed || UnloadedAt(longer, index[p], p))
  {
    ByPieceGrows(log, longer, p);
    RoutesNeverYieldDuplicateLife(longer, index, after, p);
    var home := index[p];
    var history := ByPiece(longer, p);
    assert Sighted(history, after[home].deliveredAt);
    assert HasForeign(history, home) <==> exists e :: e in longer && e.pieceId == p && Foreign(e, home);
    ScannedIff(longer, home, p);
  }

  /** A run in which the alarm is silenced: sold on the market, then scanned in at its dock. */
  lemma LateUnloadingSilencesTheft(m: Manifest, home: Word, p: PieceId)
    requires m.status == Short && 0 < m.deliveredAt && Consistent(m)
    ensures var sighting := ScanEvent(p, None, PublicVerify, m.deliveredAt * 1000 + GRACE_MS + 1, None);
            var late := ScanEvent(p, Some(home), Unloading, m.deliveredAt * 1000 + GRACE_MS + 2, None);
            && VerdictOf([sighting], map[p := home], map[home := m], p) == PostClosureSighting
            && VerdictOf([sighting, late], map[p := home], map[home := m], p) == Clean
  {
    var sighting := ScanEvent(p, None, PublicVerify, m.deliveredAt * 1000 + GRACE_MS + 1, None);
    var late := ScanEvent(p, Some(home), Unloading, m.deliveredAt * 1000 + GRACE_MS + 2, None);
    var index, manifests := map[p := home], map[home := m];
    assert sighting in ByPiece([sighting], p);
    assert ActiveSet(ByPiece([sighting], p), manifests) == {};
    assert VerdictOf([sighting], index, manifests, p) == PostClosureSighting;
    assert forall e :: e in [sighting, late] ==> e == sighting || e == late;
    assert late in [sighting, late];
    SightingStandsUnless([sighting], [sighting, late], index, manifests, manifests, p);
  }

  // ---------------------------------------------------------------- the service

  class Detector {
    const lifecycle: LifecycleStore
    const handoff: HandoffService
    const alerts: AlertSink
    var index: PieceIndex

    ghost predicate Valid()
      reads this
    {
      handoff.alerts == alerts
    }

    constructor (lifecycle: LifecycleStore, handoff: HandoffService, index: PieceIndex)
      ensures Valid() && this.lifecycle == lifecycle && this.handoff == handoff && this.index == index
    {
      this.lifecycle, this.handoff, this.index, alerts := lifecycle, handoff, index, handoff.alerts;
    }

    method ActiveAmong(ids: seq<Word>) returns (active: seq<Word>)
      requires Valid()
      modifies handoff, alerts
      ensures active == ActiveIn(handoff.chain.manifests, ids)
      ensures old(alerts.raised) <= alerts.raised
    {
      active := [];
      for i := 0 to |ids|
        invariant active == ActiveIn(handoff.chain.manifests, ids[..i])
        invariant old(alerts.raised) <= alerts.raised
      {
        assert ids[..i + 1][..i] == ids[..i];
        var r := handoff.Sync(ids[i]);
        if r.status == Some(InCustody) { active := active + [ids[i]]; }
      }
      TakeAll(ids);
    }

    /** Every verdict but CLEAN is announced. */
    method Finish(a: Analysis, home: Option<Word>)
      requires Valid()
      modifies alerts
      ensures alerts.raised == old(alerts.raised) +
                (if a.verdict == Clean then [] else [ForkAlert(a.pieceId, if a.attribution.Some? then home else None)])
    {
      if a.verdict != Clean {
        alerts.Raise(ForkAlert(a.pieceId, if a.attribution.Some? then home else None));
      }
    }

    method Analyze(p: PieceId) returns (a: Analysis)
      requires Valid()
      modifies handoff, alerts
      ensures a.pieceId == p && a.verdict == VerdictOf(lifecycle.log, index, handoff.chain.manifests, p)
      ensures a.timeline == History(lifecycle.log, p) && a.manifestIds == ManifestIds(a.timeline)
      ensures a.severity == if a.verdict == Clean then Info else Critical
      ensures a.attribution == (if a.verdict == Clean || a.verdict == UnknownPiece then None
                                else Some(AttributionOf(RecordOf(handoff.chain.manifests, index[p]))))
      ensures old(alerts.raised) <= alerts.raised
      ensures a.verdict != Clean ==> alerts.raised != [] && alerts.raised[|alerts.raised| - 1].ForkAlert?
                                     && alerts.raised[|alerts.raised| - 1].pieceId == p
    {
      var history := History(lifecycle.log, p);
      var ids := ManifestIds(history);
      if p !in index {
        a := Analysis(p, UnknownPiece, Critical, ids, history, None);
        Finish(a, None);
        return;
      }
      var home := index[p];
      var verdict := Judge(p, home, history);
      if verdict == Clean {
        a := Analysis(p, Clean, Info, ids, history, None);
      } else {
        var loss := handoff.AttributeLoss(home);
        a := Analysis(p, verdict, Critical, ids, history, Some(loss));
      }
      Finish(a, Some(home));
    }

    /** The checks on a piece with a home, in order. */
    method Judge(p: PieceId, home: Word, history: seq<ScanEvent>) returns (verdict: Verdict)
      requires Valid() && p in index && home == index[p] && history == History(lifecycle.log, p)
      modifies handoff, alerts
      ensures verdict == VerdictOf(lifecycle.log, index, handoff.chain.manifests, p)
      ensures old(alerts.raised) <= alerts.raised
    {
      VerdictInTimeOrder(lifecycle.log, p, home, 0);
      if HasForeign(history, home) { return NotOnManifest; }
      var active := ActiveAmong(ManifestIds(history));
      ActiveCount(handoff.chain.manifests, lifecycle.log, p);
      if |active| > 1 { return DuplicateLife; }
      var stolen := AliveAfterClosure(p, home, history);
      verdict := if stolen then PostClosureSighting else Clean;
    }

    method AliveAfterClosure(p: PieceId, home: Word, history: seq<ScanEvent>) returns (stolen: bool)
      requires Valid() && history == History(lifecycle.log, p)
      modifies handoff, alerts
      ensures stolen <==> Closed(handoff.chain.manifests, home)
                          && Sighted(ByPiece(lifecycle.log, p), handoff.chain.manifests[home].deliveredAt)
                          && p !in Scanned(lifecycle.log, home, Unloading)
      ensures old(alerts.raised) <= alerts.raised
    {
      var r := handoff.Sync(home);
      var closed := r.status == Some(Delivered) || r.status == Some(Short);
      if !closed || r.deliveredAt.None? { return false; }
      var wasMissing := p !in Scanned(lifecycle.log, home, Unloading);
      VerdictInTimeOrder(lifecycle.log, p, home, r.deliveredAt.value);
      stolen := Sighted(history, r.deliveredAt.value) && wasMissing;
    }

    /** The nightly sweep reports exactly the pieces that are not clean, in order. */
    method Sweep(ps: seq<PieceId>) returns (out: seq<Analysis>)
      requires Valid()
      modifies handoff, alerts
      ensures |out| == |Suspects(lifecycle.log, index, handoff.chain.manifests, ps)|
      ensures forall i :: 0 <= i < |out| ==>
                && out[i].pieceId == Suspects(lifecycle.log, index, handoff.chain.manifests, ps)[i]
                && out[i].verdict == VerdictOf(lifecycle.log, index, handoff.chain.manifests, out[i].pieceId)
    {
      out := [];
      for i := 0 to |ps|
        invariant |out| == |Suspects(lifecycle.log, index, handoff.chain.manifests, ps[..i])|
        invariant forall k :: 0 <= k < |out| ==>
                    && out[k].pieceId == Suspects(lifecycle.log, index, handoff.chain.manifests, ps[..i])[k]
                    && out[k].verdict == VerdictOf(lifecycle.log, index, handoff.chain.manifests, out[k].pieceId)
      {
        assert ps[..i + 1][..i] == ps[..i];
        var a := Analyze(ps[i]);
        if a.verdict != Clean { out := out + [a]; }
      }
      TakeAll(ps);
    }
  }

  function Suspects(log: seq<ScanEvent>, index: PieceIndex, manifests: map<Word, Manifest>, ps: seq<PieceId>): (out: seq<PieceId>)
    ensures forall p :: p in out <==> p in ps && VerdictOf(log, index, manifests, p) != Clean
  {
    if |ps| == 0 then []
    else
      var before := Suspects(log, index, manifests, ps[..|ps| - 1]);
      var last := ps[|ps| - 1];
      assert ps == ps[..|ps| - 1] + [last];
      if VerdictOf(log, index, manifests, last) != Clean then before + [last] else before
  }
}
