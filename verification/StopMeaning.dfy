/**
 * What a reported stop is and which halts become one, with every comparison written out: speeds
 * in km/h, distances in metres, times in seconds.
 */
module StopMeaning {
  import opened Wrappers
  import opened ByteStrings
  import opened Sorting
  import opened Telemetry
  import opened StopDetector

  /** A position in degrees, from the micro-degrees of the ping. */
  function Degrees(p: SignedPing): Point {
    Point(p.latE6 as real / 1_000_000.0, p.lngE6 as real / 1_000_000.0)
  }

  /** The ping reports no speed, or none above the limit. */
  predicate AtMost(p: SignedPing, kph: real) {
    p.speedKph.None? || p.speedKph.value <= kph
  }

  /** The stretch of a stop: at least two consecutive pings at no more than the moving threshold,
      each within the cluster radius of the first, the last at least the minimum duration after
      the first. It ends with the trip, or where a ping is faster or farther from the first. */
  lemma StopsMean(d: Metric, o: Options, s: seq<SignedPing>, r: Range)
    requires r in StopRanges(d, o, s)
    ensures r.lo + 2 <= r.hi <= |s|
    ensures forall k :: r.lo <= k < r.hi ==> AtMost(s[k], o.movingThresholdKph)
    ensures forall k :: r.lo < k < r.hi ==> d(Degrees(s[r.lo]), Degrees(s[k])) <= o.clusterRadiusM
    ensures s[r.hi - 1].ts - s[r.lo].ts >= o.minStopDurationS
    ensures r.hi < |s| ==>
              !AtMost(s[r.hi], o.movingThresholdKph) || d(Degrees(s[r.lo]), Degrees(s[r.hi])) > o.clusterRadiusM
  {
    StopsAreReal(d, o, s);
    var i :| 0 <= i < |StopRanges(d, o, s)| && StopRanges(d, o, s)[i] == r;
    assert IsStop(d, o, s, r);
    if r.hi < |s| {
      StopsExactly(d, o, s, r);
      EndOfStop(d, o, s, r);
    }
  }

  lemma EndOfStop(d: Metric, o: Options, s: seq<SignedPing>, r: Range)
    requires r.lo < r.hi < |s| && IsCluster(BreaksOf(d, o, s), r)
    ensures !AtMost(s[r.hi], o.movingThresholdKph) || d(Degrees(s[r.lo]), Degrees(s[r.hi])) > o.clusterRadiusM
  {
    CursorIsStart(d, o, s, r.hi);
    StartIs(BreaksOf(d, o, s), r.lo, r.hi);
    BreakAt(d, o, s, r.hi);
    assert s[r.lo..r.hi][0] == s[r.lo];
  }

  /** And a halt is reported: two or more consecutive pings that start the trip or follow a ping
      above the threshold, none of them above it, each within the radius of the first, the last
      at least the minimum duration after the first, lie in one stop that begins with them. */
  lemma HaltsAreStops(d: Metric, o: Options, s: seq<SignedPing>, lo: nat, hi: nat)
    requires TimeSorted(s) && lo + 2 <= hi <= |s|
    requires lo == 0 || !AtMost(s[lo - 1], o.movingThresholdKph)
    requires forall k :: lo <= k < hi ==> AtMost(s[k], o.movingThresholdKph)
    requires forall k :: lo < k < hi ==> d(Degrees(s[lo]), Degrees(s[k])) <= o.clusterRadiusM
    requires s[hi - 1].ts - s[lo].ts >= o.minStopDurationS
    ensures exists e :: hi <= e <= |s| && Range(lo, e) in StopRanges(d, o, s)
  {
    DwellIsReported(d, o, s, lo, hi);
  }

  /** The default options: 3 km/h, 60 metres, five minutes. A truck that reports standing still at
      one place for ten minutes has one stop; one that reports driving has none. */
  lemma StandingIsAStop(d: Metric, a: SignedPing, b: SignedPing, c: SignedPing)
    requires a.speedKph == b.speedKph == c.speedKph && a.speedKph.Some?
    requires a.ts + 300 == b.ts && b.ts + 300 == c.ts
    requires d(Degrees(a), Degrees(b)) <= 60.0 && d(Degrees(a), Degrees(c)) <= 60.0
    ensures a.speedKph.value <= 3.0 ==> StopRanges(d, DEFAULTS, [a, b, c]) == [Range(0, 3)]
    ensures a.speedKph.value > 3.0 ==> StopRanges(d, DEFAULTS, [a, b, c]) == []
  {
    var s := [a, b, c];
    assert s[0..0] == [] && s[0..1][0] == a && s[0..2][0] == a;
    assert s[1..1] == [] && s[2..2] == [];
    if a.speedKph.value <= 3.0 {
      assert ScanTo(d, DEFAULTS, s, 1) == Progress([], 0);
      assert ScanTo(d, DEFAULTS, s, 2) == Progress([], 0);
      assert ScanTo(d, DEFAULTS, s, 3) == Progress([], 0);
    } else {
      assert ScanTo(d, DEFAULTS, s, 1) == Progress([], 1);
      assert ScanTo(d, DEFAULTS, s, 2) == Progress([], 2);
      assert ScanTo(d, DEFAULTS, s, 3) == Progress([], 3);
    }
  }

  /** Where nothing scheduled is within 300 metres and no known place within its own radius, the
      shape decides: a rest from the rest threshold on (three hours by default), traffic if it is
      shorter than that, under 15 minutes and within 40 metres, otherwise unexplained. */
  lemma ShapeMeans(d: Metric, o: Options, center: Point, durationS: int, radiusM: real)
    requires forall i :: 0 <= i < |o.scheduled| ==> d(center, o.scheduled[i].at) > 300.0
    requires forall i :: 0 <= i < |o.known| ==> d(center, o.known[i].at) > o.known[i].radiusM
    ensures var kind := KindOf(d, o, center, durationS, radiusM);
            && (kind == Rest <==> durationS >= o.restThresholdS)
            && (kind == Traffic <==> durationS < o.restThresholdS && durationS < 900 && radiusM < 40.0)
            && (kind == Unexplained <==> durationS < o.restThresholdS && (durationS >= 900 || radiusM >= 40.0))
    ensures DEFAULTS.restThresholdS == 3 * 60 * 60
  {
    FirstMatchDecides(d, o, center, durationS, radiusM, 0);
    assert NoneScheduled(d, o, center, 0) && NoneKnown(d, o, center, 0);
  }

  // ---------------------------------------------------------------- what is reported about a stop

  /** The centre of a single ping is the ping, and each further ping moves it like a mean. */
  lemma CentreIsMean(pings: seq<SignedPing>, p: SignedPing)
    ensures Mean([p]) == Degrees(p)
    ensures |pings| > 0 ==>
              && Mean(pings + [p]).lat * (|pings| + 1) as real == Mean(pings).lat * |pings| as real + Degrees(p).lat
              && Mean(pings + [p]).lng * (|pings| + 1) as real == Mean(pings).lng * |pings| as real + Degrees(p).lng
  {
    assert [p][..0] == [];
    assert SumLat([p]) == Degrees(p).lat && SumLng([p]) == Degrees(p).lng;
    Undivided(SumLat([p]), 1.0);
    Undivided(SumLng([p]), 1.0);
    assert (pings + [p])[..|pings|] == pings;
    if |pings| > 0 {
      Undivided(SumLat(pings), |pings| as real);
      Undivided(SumLng(pings), |pings| as real);
      Undivided(SumLat(pings + [p]), (|pings| + 1) as real);
      Undivided(SumLng(pings + [p]), (|pings| + 1) as real);
    }
  }

  lemma Undivided(x: real, n: real)
    requires n > 0.0
    ensures x / n * n == x
  {
  }

  /** The rest of the record: first and last moment, the time between, how many pings, and the
      largest distance of one of them from the centre. */
  lemma StopRecordMeans(d: Metric, o: Options, cluster: seq<SignedPing>)
    requires |cluster| > 0
    ensures var stop := StopFor(d, o, cluster);
            && stop.startTs == cluster[0].ts && stop.endTs == cluster[|cluster| - 1].ts
            && stop.durationS == stop.endTs - stop.startTs
            && stop.pingCount == |cluster| && stop.center == Mean(cluster)
            && (forall i :: 0 <= i < |cluster| ==> d(stop.center, Degrees(cluster[i])) <= stop.radiusM)
            && (exists i :: 0 <= i < |cluster| && d(stop.center, Degrees(cluster[i])) == stop.radiusM)
            && stop.kind == KindOf(d, o, stop.center, stop.durationS, stop.radiusM)
  {
  }
}
