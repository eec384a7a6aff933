/**
 * Dwell-time clustering: a stream of positions becomes a list of stops. Coordinates enter as
 * the rounded micro-degrees of a ping; distance is any function.
 */
module StopDetector {
  import opened Wrappers
  import opened ByteStrings
  import opened Seqs
  import opened Sorting
  import opened Telemetry

  datatype Point = Point(lat: real, lng: real)

  type Metric = (Point, Point) -> real

  datatype StopKind = Pickup | Drop | KnownHalt | Traffic | Rest | Unexplained

  datatype Known = Known(at: Point, radiusM: real, kind: StopKind)
  datatype Scheduled = Scheduled(at: Point, pickup: bool)

  datatype Options = Options(
    movingThresholdKph: real, clusterRadiusM: real, minStopDurationS: int, restThresholdS: int,
    known: seq<Known>, scheduled: seq<Scheduled>)

  const DEFAULTS: Options := Options(3.0, 60.0, 300, 10_800, [], [])

  datatype Stop = Stop(
    startTs: UInt64, endTs: UInt64, durationS: int, center: Point, radiusM: real, pingCount: nat, kind: StopKind)

  function At(p: SignedPing): Point {
    Point(p.latE6 as real / 1_000_000.0, p.lngE6 as real / 1_000_000.0)
  }

  predicate Fast(o: Options, p: SignedPing) {
    p.speedKph.Some? && p.speedKph.value > o.movingThresholdKph
  }

  predicate Near(d: Metric, o: Options, anchor: SignedPing, p: SignedPing) {
    d(At(anchor), At(p)) <= o.clusterRadiusM
  }

  predicate Stationary(d: Metric, o: Options, p: SignedPing, cluster: seq<SignedPing>) {
    !Fast(o, p) && (|cluster| == 0 || Near(d, o, cluster[0], p))
  }

  // ---------------------------------------------------------------- classification

  function ByShape(o: Options, durationS: int, radiusM: real): StopKind {
    if durationS >= o.restThresholdS then Rest
    else if durationS < 900 && radiusM < 40.0 then Traffic
    else Unexplained
  }

  function KindFrom(d: Metric, o: Options, center: Point, durationS: int, radiusM: real, s: nat, k: nat): StopKind
    requires s <= |o.scheduled| && k <= |o.known|
    decreases |o.scheduled| - s, |o.known| - k
  {
    if s < |o.scheduled| then
      if d(center, o.scheduled[s].at) <= 300.0 then (if o.scheduled[s].pickup then Pickup else Drop)
      else KindFrom(d, o, center, durationS, radiusM, s + 1, k)
    else if k < |o.known| then
      if d(center, o.known[k].at) <= o.known[k].radiusM then o.known[k].kind
      else KindFrom(d, o, center, durationS, radiusM, s, k + 1)
    else ByShape(o, durationS, radiusM)
  }

  function KindOf(d: Metric, o: Options, center: Point, durationS: int, radiusM: real): StopKind {
    KindFrom(d, o, center, durationS, radiusM, 0, 0)
  }

  /** An investigator is handed exactly the stops that nothing explains: no scheduled stop and
      no known place nearby, shorter than a rest, and either long or spread out. A list of
      known places that itself says so is the only other way. */
  lemma {:induction false} UnexplainedMeans(d: Metric, o: Options, center: Point, durationS: int, radiusM: real, s: nat, k: nat)
    requires s <= |o.scheduled| && k <= |o.known|
    requires forall i :: 0 <= i < |o.known| ==> o.known[i].kind != Unexplained
    ensures KindFrom(d, o, center, durationS, radiusM, s, k) == Unexplained <==>
              && (forall i :: s <= i < |o.scheduled| ==> d(center, o.scheduled[i].at) > 300.0)
              && (forall i :: k <= i < |o.known| ==> d(center, o.known[i].at) > o.known[i].radiusM)
              && durationS < o.restThresholdS && (durationS >= 900 || radiusM >= 40.0)
    decreases |o.scheduled| - s, |o.known| - k
  {
    if s < |o.scheduled| {
      UnexplainedMeans(d, o, center, durationS, radiusM, s + 1, k);
    } else if k < |o.known| {
      UnexplainedMeans(d, o, center, durationS, radiusM, s, k + 1);
    }
  }

  predicate AtScheduled(d: Metric, o: Options, center: Point, i: nat)
    requires i < |o.scheduled|
  {
    d(center, o.scheduled[i].at) <= 300.0
  }

  predicate AtKnown(d: Metric, o: Options, center: Point, i: nat)
    requires i < |o.known|
  {
    d(center, o.known[i].at) <= o.known[i].radiusM
  }

  predicate FirstScheduled(d: Metric, o: Options, center: Point, s: nat, i: nat) {
    s <= i < |o.scheduled| && AtScheduled(d, o, center, i) && forall j :: s <= j < i ==> !AtScheduled(d, o, center, j)
  }

  predicate FirstKnown(d: Metric, o: Options, center: Point, k: nat, i: nat) {
    k <= i < |o.known| && AtKnown(d, o, center, i) && forall j :: k <= j < i ==> !AtKnown(d, o, center, j)
  }

  predicate NoneScheduled(d: Metric, o: Options, center: Point, s: nat) {
    forall i :: s <= i < |o.scheduled| ==> !AtScheduled(d, o, center, i)
  }

  predicate NoneKnown(d: Metric, o: Options, center: Point, k: nat) {
    forall i :: k <= i < |o.known| ==> !AtKnown(d, o, center, i)
  }

  lemma {:induction false} ScheduledDecides(d: Metric, o: Options, center: Point, durationS: int, radiusM: real, s: nat, k: nat, i: nat)
    requires s <= |o.scheduled| && k <= |o.known|
    ensures var kind := KindFrom(d, o, center, durationS, radiusM, s, k);
            && (FirstScheduled(d, o, center, s, i) ==> kind == if o.scheduled[i].pickup then Pickup else Drop)
            && (NoneScheduled(d, o, center, s) ==>
                  kind == KindFrom(d, o, center, durationS, radiusM, |o.scheduled|, k))
    decreases |o.scheduled| - s
  {
    if s < |o.scheduled| {
      assert AtScheduled(d, o, center, s) <==> d(center, o.scheduled[s].at) <= 300.0;
      ScheduledDecides(d, o, center, durationS, radiusM, s + 1, k, i);
    }
  }

  lemma {:induction false} KnownDecides(d: Metric, o: Options, center: Point, durationS: int, radiusM: real, k: nat, i: nat)
    requires k <= |o.known|
    ensures var kind := KindFrom(d, o, center, durationS, radiusM, |o.scheduled|, k);
            && (FirstKnown(d, o, center, k, i) ==> kind == o.known[i].kind)
            && (NoneKnown(d, o, center, k) ==> kind == ByShape(o, durationS, radiusM))
    decreases |o.known| - k
  {
    if k < |o.known| {
      assert AtKnown(d, o, center, k) <==> d(center, o.known[k].at) <= o.known[k].radiusM;
      KnownDecides(d, o, center, durationS, radiusM, k + 1, i);
    }
  }

  /** The first scheduled stop nearby decides; failing all of those, the first known place;
      failing both, the shape. */
  lemma FirstMatchDecides(d: Metric, o: Options, center: Point, durationS: int, radiusM: real, i: nat)
    ensures var kind := KindOf(d, o, center, durationS, radiusM);
            && (FirstScheduled(d, o, center, 0, i) ==> kind == if o.scheduled[i].pickup then Pickup else Drop)
            && (NoneScheduled(d, o, center, 0) && FirstKnown(d, o, center, 0, i) ==> kind == o.known[i].kind)
            && (NoneScheduled(d, o, center, 0) && NoneKnown(d, o, center, 0) ==> kind == ByShape(o, durationS, radiusM))
  {
    ScheduledDecides(d, o, center, durationS, radiusM, 0, 0, i);
    KnownDecides(d, o, center, durationS, radiusM, 0, i);
  }

  // ---------------------------------------------------------------- clusters as ranges

  /** Pings lo..hi-1 of the sorted stream. */
  datatype Range = Range(lo: nat, hi: nat)

  /** The ranges flushed so far, and where the open cluster starts. */
  datatype Progress = Progress(found: seq<Range>, lo: nat)

  /** What flush does with the cluster lo..n-1. */
  function Flushed(o: Options, s: seq<SignedPing>, pr: Progress, n: nat): seq<Range>
    requires pr.lo <= n <= |s|
  {
    if n - pr.lo < 2 || s[n - 1].ts - s[pr.lo].ts < o.minStopDurationS then pr.found
    else pr.found + [Range(pr.lo, n)]
  }

  /** One turn of the loop: a ping that ends a cluster joins none. */
  function Next(d: Metric, o: Options, s: seq<SignedPing>, pr: Progress, n: nat): (next: Progress)
    requires pr.lo <= n < |s|
    ensures next.lo <= n + 1
  {
    if Stationary(d, o, s[n], s[pr.lo..n]) then pr else Progress(Flushed(o, s, pr, n), n + 1)
  }

  /** The loop after n pings. */
  function ScanTo(d: Metric, o: Options, s: seq<SignedPing>, n: nat): (pr: Progress)
    requires n <= |s|
    ensures pr.lo <= n
  {
    if n == 0 then Progress([], 0) else Next(d, o, s, ScanTo(d, o, s, n - 1), n - 1)
  }

  function StopRanges(d: Metric, o: Options, s: seq<SignedPing>): seq<Range> {
    if |s| < 2 then [] else Flushed(o, s, ScanTo(d, o, s, |s|), |s|)
  }

  ghost predicate TimeSorted(s: seq<SignedPing>) {
    Sorted(ByTs, s)
  }

  /** What every reported stop is: two or more consecutive slow pings, all within the cluster
      radius of the first, lasting long enough. */
  ghost predicate IsStop(d: Metric, o: Options, s: seq<SignedPing>, r: Range) {
    && r.lo + 2 <= r.hi <= |s|
    && (forall k :: r.lo <= k < r.hi ==> !Fast(o, s[k]))
    && (forall k :: r.lo < k < r.hi ==> Near(d, o, s[r.lo], s[k]))
    && s[r.hi - 1].ts - s[r.lo].ts >= o.minStopDurationS
  }

  /** Stops in time order, the ping between two of them in neither. */
  ghost predicate Separate(found: seq<Range>, end: nat) {
    && (forall i :: 0 <= i < |found| ==> found[i].lo < found[i].hi < end)
    && (forall i, j :: 0 <= i < j < |found| ==> found[i].hi < found[j].lo)
  }

  ghost predicate OpenCluster(d: Metric, o: Options, s: seq<SignedPing>, lo: nat, n: nat)
    requires lo <= n <= |s|
  {
    && (forall k :: lo <= k < n ==> !Fast(o, s[k]))
    && (forall k :: lo < k < n ==> Near(d, o, s[lo], s[k]))
  }

  ghost predicate AllStops(d: Metric, o: Options, s: seq<SignedPing>, found: seq<Range>) {
    forall i :: 0 <= i < |found| ==> IsStop(d, o, s, found[i])
  }

  ghost predicate Good(d: Metric, o: Options, s: seq<SignedPing>, pr: Progress, n: nat)
    requires n <= |s|
  {
    pr.lo <= n && OpenCluster(d, o, s, pr.lo, n) && Separate(pr.found, pr.lo) && AllStops(d, o, s, pr.found)
  }

  lemma FlushKeeps(d: Metric, o: Options, s: seq<SignedPing>, pr: Progress, n: nat)
    requires n <= |s| && Good(d, o, s, pr, n)
    ensures Separate(Flushed(o, s, pr, n), n + 1) && AllStops(d, o, s, Flushed(o, s, pr, n))
  {
    var after := Flushed(o, s, pr, n);
    forall i | 0 <= i < |after| ensures IsStop(d, o, s, after[i]) && after[i].lo < after[i].hi < n + 1 {
      if i < |pr.found| {
        assert after[i] == pr.found[i];
      } else {
        assert after[i] == Range(pr.lo, n);
      }
    }
    forall i, j | 0 <= i < j < |after| ensures after[i].hi < after[j].lo {
      assert after[i] == pr.found[i];
    }
  }

  lemma NextKeeps(d: Metric, o: Options, s: seq<SignedPing>, pr: Progress, n: nat)
    requires n < |s| && Good(d, o, s, pr, n)
    ensures Good(d, o, s, Next(d, o, s, pr, n), n + 1)
  {
    if pr.lo < n {
      assert s[pr.lo..n][0] == s[pr.lo];
    }
    FlushKeeps(d, o, s, pr, n);
  }

  lemma {:induction false} ScanInvariant(d: Metric, o: Options, s: seq<SignedPing>, n: nat)
    requires n <= |s|
    ensures Good(d, o, s, ScanTo(d, o, s, n), n)
  {
    if n > 0 {
      ScanInvariant(d, o, s, n - 1);
      NextKeeps(d, o, s, ScanTo(d, o, s, n - 1), n - 1);
    }
  }

  /** Reported stops are real, disjoint and in order, for any pings, options and metric. */
  lemma StopsAreReal(d: Metric, o: Options, s: seq<SignedPing>)
    ensures Separate(StopRanges(d, o, s), |s| + 1) && AllStops(d, o, s, StopRanges(d, o, s))
  {
    if |s| >= 2 {
      ScanInvariant(d, o, s, |s|);
      FlushKeeps(d, o, s, ScanTo(d, o, s, |s|), |s|);
    }
  }

  // ---------------------------------------------------------------- exactly which stops

  /** The n-th ping ends the cluster open before it, and joins none. */
  predicate Breaks(d: Metric, o: Options, s: seq<SignedPing>, n: nat) {
    n < |s| && !Stationary(d, o, s[n], s[ScanTo(d, o, s, n).lo..n])
  }

  function BreaksTo(d: Metric, o: Options, s: seq<SignedPing>, n: nat): (brk: seq<bool>)
    ensures |brk| == n
  {
    if n == 0 then [] else BreaksTo(d, o, s, n - 1) + [Breaks(d, o, s, n - 1)]
  }

  function BreaksOf(d: Metric, o: Options, s: seq<SignedPing>): (brk: seq<bool>)
    ensures |brk| == |s|
  {
    BreaksTo(d, o, s, |s|)
  }

  lemma {:induction false} BreaksToAt(d: Metric, o: Options, s: seq<SignedPing>, n: nat, k: nat)
    requires k < n
    ensures BreaksTo(d, o, s, n)[k] == Breaks(d, o, s, k)
  {
    if k < n - 1 {
      BreaksToAt(d, o, s, n - 1, k);
    }
  }

  lemma BreakAt(d: Metric, o: Options, s: seq<SignedPing>, k: nat)
    requires k < |s|
    ensures BreaksOf(d, o, s)[k] == Breaks(d, o, s, k)
  {
    BreaksToAt(d, o, s, |s|, k);
  }

  predicate Unbroken(brk: seq<bool>, lo: nat, hi: nat)
    requires hi <= |brk|
  {
    forall n :: lo <= n < hi ==> !brk[n]
  }

  /** A cluster can start at the first ping and after each break. */
  predicate FreshAt(brk: seq<bool>, n: nat)
    requires n <= |brk|
  {
    n == 0 || brk[n - 1]
  }

  /** A maximal stretch between breaks. */
  predicate IsCluster(brk: seq<bool>, r: Range) {
    && r.lo <= r.hi <= |brk| && FreshAt(brk, r.lo) && Unbroken(brk, r.lo, r.hi)
    && (r.hi == |brk| || brk[r.hi])
  }

  predicate LongEnough(o: Options, s: seq<SignedPing>, r: Range) {
    r.lo + 2 <= r.hi <= |s| && s[r.hi - 1].ts - s[r.lo].ts >= o.minStopDurationS
  }

  /** Where the cluster that is open after n pings started. */
  function StartOf(brk: seq<bool>, n: nat): (lo: nat)
    requires n <= |brk|
    ensures lo <= n && FreshAt(brk, lo) && Unbroken(brk, lo, n)
  {
    if n == 0 || brk[n - 1] then n else StartOf(brk, n - 1)
  }

  /** Where the cluster that is open at n ends. */
  function EndFrom(brk: seq<bool>, n: nat): (e: nat)
    requires n <= |brk|
    ensures n <= e <= |brk| && Unbroken(brk, n, e) && (e == |brk| || brk[e])
    decreases |brk| - n
  {
    if n == |brk| || brk[n] then n else EndFrom(brk, n + 1)
  }

  lemma StartIs(brk: seq<bool>, lo: nat, n: nat)
    requires lo <= n <= |brk| && FreshAt(brk, lo) && Unbroken(brk, lo, n)
    ensures StartOf(brk, n) == lo
  {
    var start := StartOf(brk, n);
    assert start > 0 ==> brk[start - 1];
    assert lo > 0 ==> brk[lo - 1];
  }

  /** Two clusters that overlap are one. */
  lemma OneCluster(brk: seq<bool>, r: Range, q: Range)
    requires IsCluster(brk, r) && IsCluster(brk, q) && r.lo < q.hi && q.lo < r.hi
    ensures r == q
  {
    assert q.lo > 0 ==> brk[q.lo - 1];
    assert r.lo > 0 ==> brk[r.lo - 1];
    assert q.hi < |brk| ==> brk[q.hi];
    assert r.hi < |brk| ==> brk[r.hi];
  }

  /** The detector's cursor is the start of the open cluster. */
  lemma {:induction false} CursorIsStart(d: Metric, o: Options, s: seq<SignedPing>, n: nat)
    requires n <= |s|
    ensures ScanTo(d, o, s, n).lo == StartOf(BreaksOf(d, o, s), n)
  {
    if n > 0 {
      CursorIsStart(d, o, s, n - 1);
      BreakAt(d, o, s, n - 1);
    }
  }

  lemma FlushedMember(o: Options, s: seq<SignedPing>, pr: Progress, n: nat, r: Range)
    requires pr.lo <= n <= |s|
    ensures r in Flushed(o, s, pr, n) <==> r in pr.found || (r == Range(pr.lo, n) && LongEnough(o, s, r))
  {
  }

  /** The clusters that ended before n, one turn on. */
  lemma EndedBy(brk: seq<bool>, n: nat, r: Range)
    requires n < |brk|
    ensures r.hi < n + 1 && IsCluster(brk, r) <==>
              (r.hi < n && IsCluster(brk, r)) || (brk[n] && r == Range(StartOf(brk, n), n))
  {
    if r.hi == n && IsCluster(brk, r) {
      StartIs(brk, r.lo, n);
    }
  }

  lemma FoundStep(d: Metric, o: Options, s: seq<SignedPing>, n: nat, r: Range)
    requires n < |s|
    ensures r in ScanTo(d, o, s, n + 1).found <==>
              || r in ScanTo(d, o, s, n).found
              || (Breaks(d, o, s, n) && r == Range(ScanTo(d, o, s, n).lo, n) && LongEnough(o, s, r))
  {
    FlushedMember(o, s, ScanTo(d, o, s, n), n, r);
  }

  /** What is listed after n pings. */
  predicate Listing(o: Options, s: seq<SignedPing>, brk: seq<bool>, n: nat, r: Range) {
    r.hi < n && IsCluster(brk, r) && LongEnough(o, s, r)
  }

  lemma FoundTurn(d: Metric, o: Options, s: seq<SignedPing>, n: nat, r: Range)
    requires n < |s| && (r in ScanTo(d, o, s, n).found <==> Listing(o, s, BreaksOf(d, o, s), n, r))
    ensures r in ScanTo(d, o, s, n + 1).found <==> Listing(o, s, BreaksOf(d, o, s), n + 1, r)
  {
    FoundStep(d, o, s, n, r);
    CursorIsStart(d, o, s, n);
    BreakAt(d, o, s, n);
    EndedBy(BreaksOf(d, o, s), n, r);
  }

  /** After n pings exactly the clusters that ended before n and lasted long enough are listed. */
  lemma {:induction false} FoundExactly(d: Metric, o: Options, s: seq<SignedPing>, n: nat, r: Range)
    requires n <= |s|
    ensures r in ScanTo(d, o, s, n).found <==> Listing(o, s, BreaksOf(d, o, s), n, r)
  {
    if n > 0 {
      FoundExactly(d, o, s, n - 1, r);
      FoundTurn(d, o, s, n - 1, r);
    }
  }

  /** The reported stops are exactly the clusters that lasted long enough. */
  lemma StopsExactly(d: Metric, o: Options, s: seq<SignedPing>, r: Range)
    ensures r in StopRanges(d, o, s) <==> IsCluster(BreaksOf(d, o, s), r) && LongEnough(o, s, r)
  {
    if |s| >= 2 {
      var brk := BreaksOf(d, o, s);
      FoundExactly(d, o, s, |s|, r);
      CursorIsStart(d, o, s, |s|);
      FlushedMember(o, s, ScanTo(d, o, s, |s|), |s|, r);
      if r.hi == |s| && IsCluster(brk, r) {
        StartIs(brk, r.lo, |s|);
      }
    }
  }

  // ---------------------------------------------------------------- which dwells are missed

  /** A dwell: consecutive slow pings, each near every earlier one of them. */
  ghost predicate Dwelling(d: Metric, o: Options, s: seq<SignedPing>, lo: nat, hi: nat) {
    && lo < hi <= |s|
    && (forall k :: lo <= k < hi ==> !Fast(o, s[k]))
    && (forall j, k :: lo <= j < k < hi ==> Near(d, o, s[j], s[k]))
  }

  predicate Overlaps(r: Range, lo: nat, hi: nat) {
    r.lo < hi && lo < r.hi
  }

  /** No reported stop contains any ping of the dwell. */
  ghost predicate Missed(d: Metric, o: Options, s: seq<SignedPing>, lo: nat, hi: nat) {
    forall r :: r in StopRanges(d, o, s) ==> !Overlaps(r, lo, hi)
  }

  /** A slow ping near the open cluster's first does not break it. */
  lemma NearStays(d: Metric, o: Options, s: seq<SignedPing>, lo: nat, n: nat)
    requires lo <= n < |s| && ScanTo(d, o, s, n).lo == lo
    requires !Fast(o, s[n]) && (lo < n ==> Near(d, o, s[lo], s[n]))
    ensures !Breaks(d, o, s, n)
  {
    if lo < n {
      assert s[lo..n][0] == s[lo];
    }
  }

  lemma HoldsOn(d: Metric, o: Options, s: seq<SignedPing>, lo: nat, n: nat)
    requires lo <= n < |s| && FreshAt(BreaksOf(d, o, s), lo) && Unbroken(BreaksOf(d, o, s), lo, n)
    requires !Fast(o, s[n]) && (lo < n ==> Near(d, o, s[lo], s[n]))
    ensures !BreaksOf(d, o, s)[n]
  {
    CursorIsStart(d, o, s, n);
    StartIs(BreaksOf(d, o, s), lo, n);
    NearStays(d, o, s, lo, n);
    BreakAt(d, o, s, n);
  }

  /** A cluster that starts fresh stays open as long as its pings are slow and near the first. */
  lemma {:induction false} FreshClusterHolds(d: Metric, o: Options, s: seq<SignedPing>, lo: nat, n: nat)
    requires lo <= n <= |s| && FreshAt(BreaksOf(d, o, s), lo) && OpenCluster(d, o, s, lo, n)
    ensures Unbroken(BreaksOf(d, o, s), lo, n)
  {
    if lo < n {
      FreshClusterHolds(d, o, s, lo, n - 1);
      HoldsOn(d, o, s, lo, n - 1);
    }
  }

  /** A dwell holds at most one break, so at most one of its pings is dropped. */
  lemma AtMostOneBreak(d: Metric, o: Options, s: seq<SignedPing>, lo: nat, hi: nat, m: nat, n: nat)
    requires Dwelling(d, o, s, lo, hi) && lo <= m < n < hi
    ensures !(Breaks(d, o, s, m) && Breaks(d, o, s, n))
  {
    BreakAt(d, o, s, m);
    BreakAt(d, o, s, n);
    if Breaks(d, o, s, m) {
      FreshClusterHolds(d, o, s, m + 1, hi);
    }
  }

  /** And it is the first ping too far from the start of a halt that was already under way. */
  lemma DwellBreaksIff(d: Metric, o: Options, s: seq<SignedPing>, lo: nat, hi: nat, b: nat)
    requires Dwelling(d, o, s, lo, hi) && lo <= b < hi && Unbroken(BreaksOf(d, o, s), lo, b)
    ensures var start := StartOf(BreaksOf(d, o, s), lo);
            Breaks(d, o, s, b) <==> start < lo && !Near(d, o, s[start], s[b])
  {
    var start := StartOf(BreaksOf(d, o, s), lo);
    CursorIsStart(d, o, s, b);
    StartIs(BreaksOf(d, o, s), start, b);
    if start < b {
      assert s[start..b][0] == s[start];
    }
  }

  /** A dwell without a break lies in one cluster. */
  lemma UnbrokenDwellMissedIff(d: Metric, o: Options, s: seq<SignedPing>, lo: nat, hi: nat)
    requires Dwelling(d, o, s, lo, hi) && Unbroken(BreaksOf(d, o, s), lo, hi)
    ensures var brk := BreaksOf(d, o, s);
            Missed(d, o, s, lo, hi) <==> !LongEnough(o, s, Range(StartOf(brk, lo), EndFrom(brk, hi)))
  {
    var brk := BreaksOf(d, o, s);
    var whole := Range(StartOf(brk, lo), EndFrom(brk, hi));
    assert IsCluster(brk, whole) && Overlaps(whole, lo, hi);
    StopsExactly(d, o, s, whole);
    forall r | r in StopRanges(d, o, s) && Overlaps(r, lo, hi) ensures r == whole {
      StopsExactly(d, o, s, r);
      OneCluster(brk, r, whole);
    }
  }

  /** The two clusters beside a break inside a stretch, and the only ones that can touch it. */
  lemma AroundBreak(brk: seq<bool>, lo: nat, hi: nat, b: nat, r: Range)
    requires lo <= b < hi <= |brk| && brk[b] && forall n :: lo <= n < hi && n != b ==> !brk[n]
    ensures var head, tail := Range(StartOf(brk, lo), b), Range(b + 1, EndFrom(brk, b + 1));
            && IsCluster(brk, head) && IsCluster(brk, tail)
            && (lo < b ==> Overlaps(head, lo, hi)) && (b + 1 < hi ==> Overlaps(tail, lo, hi))
            && (IsCluster(brk, r) && r.lo < r.hi && Overlaps(r, lo, hi) ==>
                  (r == head && lo < b) || (r == tail && b + 1 < hi))
  {
    var head, tail := Range(StartOf(brk, lo), b), Range(b + 1, EndFrom(brk, b + 1));
    assert b + 1 < hi ==> tail.hi >= hi;
    if IsCluster(brk, r) && r.lo < r.hi && Overlaps(r, lo, hi) {
      assert r.hi <= b || b < r.lo;
      if r.hi <= b {
        OneCluster(brk, r, head);
      } else {
        OneCluster(brk, r, tail);
      }
    }
  }

  /** A dwell broken at b is missed exactly when both parts are too short: the cluster that
      ended at b, if it reached into the dwell, and the one that started after b, if the dwell
      went on. */
  lemma BrokenDwellMissedIff(d: Metric, o: Options, s: seq<SignedPing>, lo: nat, hi: nat, b: nat)
    requires Dwelling(d, o, s, lo, hi) && lo <= b < hi && Breaks(d, o, s, b)
    ensures var brk := BreaksOf(d, o, s);
            Missed(d, o, s, lo, hi) <==>
              && !(lo < b && LongEnough(o, s, Range(StartOf(brk, lo), b)))
              && !(b + 1 < hi && LongEnough(o, s, Range(b + 1, EndFrom(brk, b + 1))))
  {
    var brk := BreaksOf(d, o, s);
    BreakAt(d, o, s, b);
    forall n | lo <= n < hi && n != b ensures !brk[n] {
      BreakAt(d, o, s, n);
      if n < b { AtMostOneBreak(d, o, s, lo, hi, n, b); } else { AtMostOneBreak(d, o, s, lo, hi, b, n); }
    }
    var head, tail := Range(StartOf(brk, lo), b), Range(b + 1, EndFrom(brk, b + 1));
    AroundBreak(brk, lo, hi, b, head);
    StopsExactly(d, o, s, head);
    StopsExactly(d, o, s, tail);
    forall r | r in StopRanges(d, o, s) && Overlaps(r, lo, hi)
      ensures (r == head && lo < b) || (r == tail && b + 1 < hi)
    {
      StopsExactly(d, o, s, r);
      AroundBreak(brk, lo, hi, b, r);
    }
  }

  /** Of a long dwell without its ping b, one part still lasts the minimum duration. */
  lemma OnePartIsLong(o: Options, s: seq<SignedPing>, lo: nat, hi: nat, b: nat, gap: nat)
    requires lo <= b < hi <= |s| && o.minStopDurationS > 0
    requires forall k :: lo < k < hi ==> s[k].ts - s[k - 1].ts <= gap
    requires s[hi - 1].ts - s[lo].ts >= 2 * o.minStopDurationS + 2 * gap
    ensures (lo < b && s[b - 1].ts - s[lo].ts >= o.minStopDurationS)
            || (b + 1 < hi && s[hi - 1].ts - s[b + 1].ts >= o.minStopDurationS)
  {
    assert lo < b ==> s[b].ts - s[b - 1].ts <= gap;
    assert b + 1 < hi ==> s[b + 1].ts - s[b].ts <= gap;
  }

  /** A range that contains a long part is long enough. */
  lemma WiderIsLong(o: Options, s: seq<SignedPing>, r: Range, lo: nat, hi: nat)
    requires TimeSorted(s) && o.minStopDurationS > 0
    requires r.lo <= lo < hi <= r.hi <= |s| && s[hi - 1].ts - s[lo].ts >= o.minStopDurationS
    ensures LongEnough(o, s, r)
  {
    assert r.lo == lo || ByTs(s[r.lo], s[lo]);
    assert r.hi == hi || ByTs(s[hi - 1], s[r.hi - 1]);
  }

  lemma SeenByHead(d: Metric, o: Options, s: seq<SignedPing>, lo: nat, hi: nat, b: nat)
    requires Dwelling(d, o, s, lo, hi) && TimeSorted(s) && o.minStopDurationS > 0
    requires lo < b < hi && Breaks(d, o, s, b) && s[b - 1].ts - s[lo].ts >= o.minStopDurationS
    ensures !Missed(d, o, s, lo, hi)
  {
    BrokenDwellMissedIff(d, o, s, lo, hi, b);
    WiderIsLong(o, s, Range(StartOf(BreaksOf(d, o, s), lo), b), lo, b);
  }

  lemma SeenByTail(d: Metric, o: Options, s: seq<SignedPing>, lo: nat, hi: nat, b: nat)
    requires Dwelling(d, o, s, lo, hi) && TimeSorted(s) && o.minStopDurationS > 0
    requires lo <= b && b + 1 < hi && Breaks(d, o, s, b) && s[hi - 1].ts - s[b + 1].ts >= o.minStopDurationS
    ensures !Missed(d, o, s, lo, hi)
  {
    var brk := BreaksOf(d, o, s);
    BrokenDwellMissedIff(d, o, s, lo, hi, b);
    BreakAt(d, o, s, b);
    FreshClusterHolds(d, o, s, b + 1, hi);
    WiderIsLong(o, s, Range(b + 1, EndFrom(brk, b + 1)), b + 1, hi);
  }

  /** What a caller can rely on without looking inside: a dwell whose consecutive pings are at
      most `gap` seconds apart shows up in some stop once it lasts twice the minimum duration
      and twice the gap. */
  lemma LongDwellIsSeen(d: Metric, o: Options, s: seq<SignedPing>, lo: nat, hi: nat, gap: nat)
    requires Dwelling(d, o, s, lo, hi) && TimeSorted(s) && o.minStopDurationS > 0
    requires forall k :: lo < k < hi ==> s[k].ts - s[k - 1].ts <= gap
    requires s[hi - 1].ts - s[lo].ts >= 2 * o.minStopDurationS + 2 * gap
    ensures !Missed(d, o, s, lo, hi)
  {
    if b :| lo <= b < hi && Breaks(d, o, s, b) {
      OnePartIsLong(o, s, lo, hi, b, gap);
      if lo < b && s[b - 1].ts - s[lo].ts >= o.minStopDurationS {
        SeenByHead(d, o, s, lo, hi, b);
      } else {
        SeenByTail(d, o, s, lo, hi, b);
      }
    } else {
      var brk := BreaksOf(d, o, s);
      forall n | lo <= n < hi ensures !brk[n] { BreakAt(d, o, s, n); }
      UnbrokenDwellMissedIff(d, o, s, lo, hi);
      WiderIsLong(o, s, Range(StartOf(brk, lo), EndFrom(brk, hi)), lo, hi);
    }
  }

  /** Slow pings near the first, for long enough, are reported as one stop from the first of
      them on exactly when a cluster can start there, */
  lemma DwellReportedIff(d: Metric, o: Options, s: seq<SignedPing>, lo: nat, hi: nat)
    requires lo + 2 <= hi <= |s| && TimeSorted(s)
    requires OpenCluster(d, o, s, lo, hi) && s[hi - 1].ts - s[lo].ts >= o.minStopDurationS
    ensures FreshAt(BreaksOf(d, o, s), lo) <==> exists e :: hi <= e <= |s| && Range(lo, e) in StopRanges(d, o, s)
  {
    var brk := BreaksOf(d, o, s);
    if FreshAt(brk, lo) {
      FreshClusterHolds(d, o, s, lo, hi);
      var e := EndFrom(brk, hi);
      assert e == hi || ByTs(s[hi - 1], s[e - 1]);
      StopsExactly(d, o, s, Range(lo, e));
    }
    if e :| hi <= e <= |s| && Range(lo, e) in StopRanges(d, o, s) {
      StopsExactly(d, o, s, Range(lo, e));
    }
  }

  /** as it can at the start of the trip and after a moving ping. */
  lemma DwellIsReported(d: Metric, o: Options, s: seq<SignedPing>, lo: nat, hi: nat)
    requires lo + 2 <= hi <= |s| && TimeSorted(s)
    requires lo == 0 || Fast(o, s[lo - 1])
    requires OpenCluster(d, o, s, lo, hi) && s[hi - 1].ts - s[lo].ts >= o.minStopDurationS
    ensures exists e :: hi <= e <= |s| && Range(lo, e) in StopRanges(d, o, s)
  {
    if lo > 0 {
      BreakAt(d, o, s, lo - 1);
    }
    DwellReportedIff(d, o, s, lo, hi);
  }

  /** It can be missed when it follows another halt without a moving ping between: the ping
      that ends the first cluster is dropped, and here the second loses half its evidence. */
  lemma JumpDropsTheFirstPing(d: Metric, a: SignedPing, b: SignedPing, c: SignedPing)
    requires a.speedKph == None && b.speedKph == None && c.speedKph == None
    requires d(At(a), At(b)) > 60.0 && d(At(b), At(c)) <= 60.0
    requires a.ts < b.ts && c.ts - b.ts >= 300
    ensures Dwelling(d, DEFAULTS, [a, b, c], 1, 3) && Missed(d, DEFAULTS, [a, b, c], 1, 3)
    ensures StopRanges(d, DEFAULTS, [a, b, c]) == []
  {
    var s := [a, b, c];
    assert ScanTo(d, DEFAULTS, s, 1) == Progress([], 0);
    assert s[0..1][0] == a;
    assert ScanTo(d, DEFAULTS, s, 2) == Progress([], 2);
    assert s[2..2] == [];
    assert ScanTo(d, DEFAULTS, s, 3) == Progress([], 2);
  }

  // ---------------------------------------------------------------- time accounting

  function Dwell(s: seq<SignedPing>, r: Range): int
    requires r.lo < r.hi <= |s|
  {
    s[r.hi - 1].ts - s[r.lo].ts
  }

  function TotalDwell(s: seq<SignedPing>, found: seq<Range>): int
    requires forall i :: 0 <= i < |found| ==> found[i].lo < found[i].hi <= |s|
  {
    if |found| == 0 then 0
    else TotalDwell(s, found[..|found| - 1]) + Dwell(s, found[|found| - 1])
  }

  /** Disjoint stops never add up to more than the time they span. */
  lemma {:induction false} DwellFits(s: seq<SignedPing>, found: seq<Range>, end: nat)
    requires TimeSorted(s) && 0 < end <= |s| && Separate(found, end + 1)
    ensures 0 <= TotalDwell(s, found) <= s[end - 1].ts - s[0].ts
  {
    if |found| == 0 {
      assert end == 1 || ByTs(s[0], s[end - 1]);
    } else {
      var last := found[|found| - 1];
      var init := found[..|found| - 1];
      assert last.lo + 1 == last.hi || ByTs(s[last.lo], s[last.hi - 1]);
      assert last.hi == end || ByTs(s[last.hi - 1], s[end - 1]);
      if |init| == 0 {
        assert last.lo == 0 || ByTs(s[0], s[last.lo]);
      } else {
        assert found[|init| - 1].hi < last.lo;
        DwellFits(s, init, last.lo);
        assert ByTs(s[last.lo - 1], s[last.lo]);
      }
    }
  }

  /** Stopped time never exceeds the journey. */
  lemma StoppedTimeFits(d: Metric, o: Options, s: seq<SignedPing>)
    requires TimeSorted(s) && |s| > 0
    ensures (forall i :: 0 <= i < |StopRanges(d, o, s)| ==> StopRanges(d, o, s)[i].lo < StopRanges(d, o, s)[i].hi <= |s|)
    ensures 0 <= TotalDwell(s, StopRanges(d, o, s)) <= s[|s| - 1].ts - s[0].ts
  {
    StopsAreReal(d, o, s);
    DwellFits(s, StopRanges(d, o, s), |s|);
  }

  // ---------------------------------------------------------------- stops

  function Mean(pings: seq<SignedPing>): Point
    requires |pings| > 0
  {
    var n := |pings| as real;
    Point(SumLat(pings) / n, SumLng(pings) / n)
  }

  function SumLat(pings: seq<SignedPing>): real {
    if |pings| == 0 then 0.0 else SumLat(pings[..|pings| - 1]) + At(pings[|pings| - 1]).lat
  }

  function SumLng(pings: seq<SignedPing>): real {
    if |pings| == 0 then 0.0 else SumLng(pings[..|pings| - 1]) + At(pings[|pings| - 1]).lng
  }

  /** The largest distance from a point to a ping. */
  function Spread(d: Metric, center: Point, pings: seq<SignedPing>): (r: real)
    requires |pings| > 0
    ensures exists i :: 0 <= i < |pings| && r == d(center, At(pings[i]))
    ensures forall i :: 0 <= i < |pings| ==> d(center, At(pings[i])) <= r
  {
    var last := d(center, At(pings[|pings| - 1]));
    if |pings| == 1 then last
    else
      var before := Spread(d, center, pings[..|pings| - 1]);
      if before >= last then before else last
  }

  /** The stop reported for a cluster. */
  function StopFor(d: Metric, o: Options, cluster: seq<SignedPing>): Stop
    requires |cluster| > 0
  {
    var duration := cluster[|cluster| - 1].ts as int - cluster[0].ts as int;
    var center := Mean(cluster);
    var radiusM := Spread(d, center, cluster);
    Stop(cluster[0].ts, cluster[|cluster| - 1].ts, duration, center, radiusM, |cluster|,
         KindOf(d, o, center, duration, radiusM))
  }

  function FlushedStop(d: Metric, o: Options, cluster: seq<SignedPing>): Option<Stop> {
    if |cluster| < 2 || cluster[|cluster| - 1].ts - cluster[0].ts < o.minStopDurationS then None
    else Some(StopFor(d, o, cluster))
  }

  function Listed(stop: Option<Stop>): seq<Stop> {
    if stop.Some? then [stop.value] else []
  }

  class Detector {
    const distance: Metric
    const options: Options

    constructor (distance: Metric, options: Options)
      ensures this.distance == distance && this.options == options
    {
      this.distance, this.options := distance, options;
    }

    method Classify(center: Point, durationS: int, radiusM: real) returns (kind: StopKind)
      ensures kind == KindOf(distance, options, center, durationS, radiusM)
    {
      for i := 0 to |options.scheduled|
        invariant KindOf(distance, options, center, durationS, radiusM)
                  == KindFrom(distance, options, center, durationS, radiusM, i, 0)
      {
        if distance(center, options.scheduled[i].at) <= 300.0 {
          return if options.scheduled[i].pickup then Pickup else Drop;
        }
      }
      for i := 0 to |options.known|
        invariant KindOf(distance, options, center, durationS, radiusM)
                  == KindFrom(distance, options, center, durationS, radiusM, |options.scheduled|, i)
      {
        if distance(center, options.known[i].at) <= options.known[i].radiusM { return options.known[i].kind; }
      }
      return ByShape(options, durationS, radiusM);
    }

    /** A cluster becomes a stop if it is long enough, and is dropped otherwise. */
    method Flush(cluster: seq<SignedPing>) returns (stop: Option<Stop>)
      ensures stop == FlushedStop(distance, options, cluster)
    {
      if |cluster| < 2 { return None; }
      var duration: int := cluster[|cluster| - 1].ts as int - cluster[0].ts as int;
      if duration < options.minStopDurationS { return None; }
      var center := Mean(cluster);
      var radiusM := Spread(distance, center, cluster);
      var kind := Classify(center, duration, radiusM);
      return Some(Stop(cluster[0].ts, cluster[|cluster| - 1].ts, duration, center, radiusM, |cluster|, kind));
    }

    /** The detected stops are the stop ranges of the sorted pings, in order. */
    method Detect(pings: seq<SignedPing>) returns (stops: seq<Stop>)
      ensures Reports(distance, options, Sort(ByTs, pings), StopRanges(distance, options, Sort(ByTs, pings)), stops)
    {
      var s := Sort(ByTs, pings);
      if |s| < 2 { return []; }
      stops := ScanAll(s);
    }

    /** The clustering loop over sorted pings. */
    method ScanAll(s: seq<SignedPing>) returns (stops: seq<Stop>)
      requires |s| >= 2
      ensures Reports(distance, options, s, StopRanges(distance, options, s), stops)
    {
      stops := [];
      var cluster: seq<SignedPing> := [];
      ghost var pr := Progress([], 0);
      for n := 0 to |s|
        invariant pr == ScanTo(distance, options, s, n) && cluster == s[pr.lo..n]
        invariant Reports(distance, options, s, pr.found, stops)
      {
        LoopTurn(distance, options, s, pr, n, cluster, stops);
        if Stationary(distance, options, s[n], cluster) {
          cluster := cluster + [s[n]];
        } else {
          var stop := Flush(cluster);
          stops := stops + Listed(stop);
          cluster := [];
        }
        pr := Next(distance, options, s, pr, n);
      }
      var stop := Flush(cluster);
      FlushReports(distance, options, s, pr, |s|, cluster, stops);
      stops := stops + Listed(stop);
    }
  }

  /** The stops so far are those of the ranges so far. */
  ghost predicate Reports(d: Metric, o: Options, s: seq<SignedPing>, found: seq<Range>, stops: seq<Stop>) {
    && |stops| == |found|
    && forall i :: 0 <= i < |found| ==>
         found[i].lo < found[i].hi <= |s| && stops[i] == StopFor(d, o, s[found[i].lo..found[i].hi])
  }

  lemma FlushReports(d: Metric, o: Options, s: seq<SignedPing>, pr: Progress, n: nat,
                     cluster: seq<SignedPing>, stops: seq<Stop>)
    requires pr.lo <= n <= |s| && Reports(d, o, s, pr.found, stops) && cluster == s[pr.lo..n]
    ensures Reports(d, o, s, Flushed(o, s, pr, n), stops + Listed(FlushedStop(d, o, cluster)))
  {
    if pr.lo < n {
      assert cluster[0] == s[pr.lo] && cluster[|cluster| - 1] == s[n - 1];
    }
    if FlushedStop(d, o, cluster).Some? {
      ReportsMore(d, o, s, pr.found, stops, Range(pr.lo, n));
    }
  }

  /** One turn of the loop keeps the cluster and the reports in step with the ranges. */
  lemma LoopTurn(d: Metric, o: Options, s: seq<SignedPing>, pr: Progress, n: nat,
                 cluster: seq<SignedPing>, stops: seq<Stop>)
    requires pr.lo <= n < |s| && Reports(d, o, s, pr.found, stops) && cluster == s[pr.lo..n]
    ensures var next := Next(d, o, s, pr, n);
            var stationary := Stationary(d, o, s[n], cluster);
            && s[next.lo..n + 1] == (if stationary then cluster + [s[n]] else [])
            && Reports(d, o, s, next.found, if stationary then stops else stops + Listed(FlushedStop(d, o, cluster)))
  {
    SliceMore(s, pr.lo, n);
    FlushReports(d, o, s, pr, n, cluster, stops);
  }

  lemma ReportsMore(d: Metric, o: Options, s: seq<SignedPing>, found: seq<Range>, stops: seq<Stop>, r: Range)
    requires Reports(d, o, s, found, stops) && r.lo < r.hi <= |s|
    ensures Reports(d, o, s, found + [r], stops + [StopFor(d, o, s[r.lo..r.hi])])
  {
  }
}
