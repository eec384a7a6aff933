/** The journey record: its time accounting, its distance and speed, its stops and its gaps. */
module Timeline {
  import opened Wrappers
  import opened ByteStrings
  import opened Seqs
  import opened Sorting
  import opened Telemetry
  import opened StopDetector
  import opened StopMeaning

  datatype Gap = Gap(fromTs: UInt64, toTs: UInt64, gapS: int)

  datatype Journey = Journey(
    truckId: string, startTs: UInt64, endTs: UInt64,
    totalDurationS: int, movingDurationS: int, stoppedDurationS: int,
    distanceM: real, avgSpeedKph: real, maxSpeedKph: real, stops: seq<Stop>, unexplainedStops: seq<Stop>,
    gaps: seq<Gap>, pingCount: nat, batchCount: nat, anchored: bool, signerTier: Byte)

  // ---------------------------------------------------------------- gaps

  const GAP_THRESHOLD_S := 120

  /** The intervals between the first n pings that are longer than the threshold. */
  function GapsTo(s: seq<SignedPing>, n: nat): seq<Gap>
    requires n <= |s|
  {
    if n < 2 then []
    else
      var gapS := s[n - 1].ts as int - s[n - 2].ts as int;
      GapsTo(s, n - 1) + (if gapS > GAP_THRESHOLD_S then [Gap(s[n - 2].ts, s[n - 1].ts, gapS)] else [])
  }

  /** A hole in the telemetry is listed exactly when it is longer than the threshold. */
  lemma {:induction false} GapsAreTheHoles(s: seq<SignedPing>, n: nat, g: Gap)
    requires n <= |s|
    ensures g in GapsTo(s, n) <==>
              exists i :: 0 < i < n && s[i].ts - s[i - 1].ts > 120
                          && g == Gap(s[i - 1].ts, s[i].ts, s[i].ts - s[i - 1].ts)
  {
    if n >= 2 {
      GapsAreTheHoles(s, n - 1, g);
    }
  }

  function TotalGap(gaps: seq<Gap>): int {
    if |gaps| == 0 then 0 else TotalGap(gaps[..|gaps| - 1]) + gaps[|gaps| - 1].gapS
  }

  lemma TotalGapMore(gaps: seq<Gap>, g: Gap)
    ensures TotalGap(gaps + [g]) == TotalGap(gaps) + g.gapS
  {
    assert (gaps + [g])[..|gaps|] == gaps;
  }

  /** Listed gaps never add up to more than the journey, and leave at most the threshold per ping. */
  lemma {:induction false} GapsFit(s: seq<SignedPing>, n: nat)
    requires 0 < n <= |s| && TimeSorted(s)
    ensures 0 <= TotalGap(GapsTo(s, n)) <= s[n - 1].ts - s[0].ts <= TotalGap(GapsTo(s, n)) + (n - 1) * 120
  {
    if n >= 2 {
      GapsFit(s, n - 1);
      assert ByTs(s[n - 2], s[n - 1]);
      if s[n - 1].ts - s[n - 2].ts > GAP_THRESHOLD_S {
        TotalGapMore(GapsTo(s, n - 1), Gap(s[n - 2].ts, s[n - 1].ts, s[n - 1].ts - s[n - 2].ts));
      } else {
        assert GapsTo(s, n - 1) + [] == GapsTo(s, n - 1);
      }
    }
  }

  method DetectGaps(pings: seq<SignedPing>) returns (gaps: seq<Gap>)
    ensures gaps == GapsTo(Sort(ByTs, pings), |Sort(ByTs, pings)|)
  {
    var s := Sort(ByTs, pings);
    gaps := [];
    var i := 1;
    while i < |s|
      invariant 1 <= i
      invariant gaps == GapsTo(s, if i < |s| then i else |s|)
    {
      var gapS := s[i].ts as int - s[i - 1].ts as int;
      if gapS > GAP_THRESHOLD_S { gaps := gaps + [Gap(s[i - 1].ts, s[i].ts, gapS)]; }
      i := i + 1;
    }
  }

  // ---------------------------------------------------------------- accounting

  function SumDurations(stops: seq<Stop>): int {
    if |stops| == 0 then 0 else SumDurations(stops[..|stops| - 1]) + stops[|stops| - 1].durationS
  }

  lemma DurationIsDwell(d: Metric, o: Options, s: seq<SignedPing>, r: Range)
    requires r.lo < r.hi <= |s|
    ensures StopFor(d, o, s[r.lo..r.hi]).durationS == Dwell(s, r)
  {
    var cluster := s[r.lo..r.hi];
    assert cluster[0] == s[r.lo] && cluster[|cluster| - 1] == s[r.hi - 1];
  }

  lemma {:induction false} DurationsAreDwells(d: Metric, o: Options, s: seq<SignedPing>, found: seq<Range>, stops: seq<Stop>)
    requires Reports(d, o, s, found, stops)
    ensures SumDurations(stops) == TotalDwell(s, found)
  {
    if |stops| > 0 {
      var n := |stops| - 1;
      assert Reports(d, o, s, found[..n], stops[..n]);
      DurationsAreDwells(d, o, s, found[..n], stops[..n]);
      DurationIsDwell(d, o, s, found[n]);
    }
  }

  function PathLength(d: Metric, s: seq<SignedPing>, n: nat): real
    requires n <= |s|
  {
    if n < 2 then 0.0 else PathLength(d, s, n - 1) + d(At(s[n - 2]), At(s[n - 1]))
  }

  /** The path of one ping is nothing, that of two their distance, and a longer one is the sum of
      its parts, wherever it is cut. */
  lemma {:induction false} PathMeans(d: Metric, s: seq<SignedPing>, n: nat, k: nat)
    requires k < n <= |s|
    ensures n == 1 ==> PathLength(d, s, n) == 0.0
    ensures n == 2 ==> PathLength(d, s, n) == d(Degrees(s[0]), Degrees(s[1]))
    ensures PathLength(d, s, n) == PathLength(d, s, k + 1) + PathLength(d, s[k..], n - k)
  {
    if k < n - 1 {
      PathMeans(d, s, n - 1, k);
      assert s[k..][n - k - 1] == s[n - 1] && s[k..][n - k - 2] == s[n - 2];
    }
  }

  function SpeedOf(p: SignedPing): real {
    if p.speedKph.Some? then p.speedKph.value else 0.0
  }

  function OnlyUnexplained(stops: seq<Stop>): (out: seq<Stop>)
    ensures forall x :: x in out <==> x in stops && x.kind == Unexplained
  {
    if |stops| == 0 then []
    else
      var before := OnlyUnexplained(stops[..|stops| - 1]);
      var last := stops[|stops| - 1];
      assert stops == stops[..|stops| - 1] + [last];
      if last.kind == Unexplained then before + [last] else before
  }

  /** Stopped and moving time of any journey: the stops fit, so the clamp is idle and the two
      add up to the whole. */
  lemma TimeAddsUp(d: Metric, o: Options, s: seq<SignedPing>, stops: seq<Stop>)
    requires TimeSorted(s) && |s| > 0
    requires Reports(d, o, s, StopRanges(d, o, s), stops)
    ensures 0 <= SumDurations(stops) <= s[|s| - 1].ts - s[0].ts
  {
    StoppedTimeFits(d, o, s);
    DurationsAreDwells(d, o, s, StopRanges(d, o, s), stops);
  }

  /** Kilometres per hour of moving time; zero for a journey that never moved. */
  function Average(distanceM: real, movingS: int): real {
    if movingS > 0 then distanceM / 1000.0 / (movingS as real) * 3600.0 else 0.0
  }

  /** A truck that keeps a speed of v km/h for its moving time is reported with v. */
  lemma SteadySpeedIsAverage(v: real, movingS: int)
    requires movingS > 0
    ensures Average(v * 1000.0 * (movingS as real) / 3600.0, movingS) == v
  {
    var t := movingS as real;
    assert v * 1000.0 * t / 3600.0 / 1000.0 == v * t / 3600.0;
    assert v * t / 3600.0 / t == v / 3600.0;
  }

  /** The top speed, over every ping but the first, whose speed is never looked at. */
  ghost predicate TopSpeed(s: seq<SignedPing>, kph: real) {
    && kph >= 0.0 && (forall i :: 0 < i < |s| ==> SpeedOf(s[i]) <= kph)
    && (kph == 0.0 || exists i :: 0 < i < |s| && kph == SpeedOf(s[i]))
  }

  /** What a journey record says about sorted pings; moving and stopped time add up to the whole. */
  ghost predicate Accurate(d: Metric, o: Options, s: seq<SignedPing>, t: Journey) {
    && |s| > 0 && t.truckId == s[0].truckId && t.signerTier == s[0].signerTier
    && t.startTs == s[0].ts && t.endTs == s[|s| - 1].ts
    && t.totalDurationS == t.endTs - t.startTs
    && t.movingDurationS + t.stoppedDurationS == t.totalDurationS
    && t.movingDurationS >= 0 && t.stoppedDurationS == SumDurations(t.stops)
    && Reports(d, o, s, StopRanges(d, o, s), t.stops)
    && t.unexplainedStops == OnlyUnexplained(t.stops)
    && t.gaps == GapsTo(s, |s|) && t.distanceM == PathLength(d, s, |s|) && TopSpeed(s, t.maxSpeedKph)
    && t.avgSpeedKph == Average(t.distanceM, t.movingDurationS)
    && (t.anchored <==> t.batchCount > 0)
  }

  /** The fastest of all pings, zero if none reports a speed above it. */
  function Fastest(s: seq<SignedPing>): (kph: real)
    ensures kph >= 0.0
    ensures forall i :: 0 <= i < |s| ==> SpeedOf(s[i]) <= kph
    ensures kph == 0.0 || exists i :: 0 <= i < |s| && kph == SpeedOf(s[i])
  {
    if |s| == 0 then 0.0
    else
      var rest := Fastest(s[..|s| - 1]);
      var last := SpeedOf(s[|s| - 1]);
      if last > rest then last else rest
  }

  /** The reported top speed is the fastest ping's exactly when the first ping stands still or
      a later one is at least as fast. */
  lemma TopSpeedIsFastestIff(d: Metric, o: Options, s: seq<SignedPing>, t: Journey)
    requires Accurate(d, o, s, t)
    ensures t.maxSpeedKph == Fastest(s) <==>
              SpeedOf(s[0]) <= 0.0 || exists i :: 0 < i < |s| && SpeedOf(s[0]) <= SpeedOf(s[i])
  {
  }

  /** A truck seen at 90 and then at 40 km/h is reported with a top speed of 40. */
  lemma FirstPingIsIgnored(d: Metric, o: Options, p: SignedPing, q: SignedPing, t: Journey)
    requires p.speedKph == Some(90.0) && q.speedKph == Some(40.0) && p.ts <= q.ts
    requires Accurate(d, o, [p, q], t)
    ensures t.maxSpeedKph == 40.0 && Fastest([p, q]) == 90.0
  {
    var s := [p, q];
    assert SpeedOf(s[0]) == 90.0 && SpeedOf(s[1]) == 40.0;
  }

  class TimelineBuilder {
    const distance: Metric
    const options: Options

    constructor (distance: Metric, options: Options)
      ensures this.distance == distance && this.options == options
    {
      this.distance, this.options := distance, options;
    }

    /** None stands for NO_TELEMETRY_FOR_TRIP. */
    method Build(pings: seq<SignedPing>, batchCount: nat) returns (t: Option<Journey>)
      ensures t.None? <==> |pings| == 0
      ensures t.Some? ==> Accurate(distance, options, Sort(ByTs, pings), t.value)
      ensures t.Some? ==> forall p :: p in pings ==> t.value.startTs <= p.ts <= t.value.endTs
      ensures t.Some? ==> t.value.pingCount == |pings| && t.value.batchCount == batchCount
    {
      if |pings| == 0 { return None; }
      var s := Sort(ByTs, pings);
      SortedFacts(pings);
      var journey := Assemble(s, batchCount);
      return Some(journey);
    }

    method Assemble(s: seq<SignedPing>, batchCount: nat) returns (t: Journey)
      requires |s| > 0 && TimeSorted(s)
      ensures Accurate(distance, options, s, t) && t.pingCount == |s| && t.batchCount == batchCount
    {
      var detector := new Detector(distance, options);
      var stops := detector.Detect(s);
      SortedIsFixed(ByTs, s);
      TimeAddsUp(distance, options, s, stops);
      var total: int := s[|s| - 1].ts as int - s[0].ts as int;
      var stopped := SumDurations(stops);
      var distanceM, maxSpeed := Odometer(s);
      var moving := if total - stopped > 0 then total - stopped else 0;
      var gaps := DetectGaps(s);
      var average := Average(distanceM, moving);
      return Journey(s[0].truckId, s[0].ts, s[|s| - 1].ts, total, moving, stopped, distanceM, average, maxSpeed,
                     stops, OnlyUnexplained(stops), gaps, |s|, batchCount, batchCount > 0, s[0].signerTier);
    }

    /** The distance and top-speed loop. */
    method Odometer(s: seq<SignedPing>) returns (distanceM: real, maxSpeedKph: real)
      requires |s| > 0
      ensures distanceM == PathLength(distance, s, |s|) && TopSpeed(s, maxSpeedKph)
    {
      distanceM, maxSpeedKph := 0.0, 0.0;
      for i := 1 to |s|
        invariant distanceM == PathLength(distance, s, i) && maxSpeedKph >= 0.0
        invariant forall k :: 0 < k < i ==> SpeedOf(s[k]) <= maxSpeedKph
        invariant maxSpeedKph == 0.0 || exists k :: 0 < k < i && maxSpeedKph == SpeedOf(s[k])
      {
        distanceM := distanceM + distance(At(s[i - 1]), At(s[i]));
        if SpeedOf(s[i]) > maxSpeedKph { maxSpeedKph := SpeedOf(s[i]); }
      }
    }

    /** What a dispute asks for: the unexplained stops inside a custody window, all of them. */
    method SuspiciousWithin(t: Journey, fromTs: UInt64, toTs: UInt64) returns (out: seq<Stop>)
      ensures out == Inside(t.unexplainedStops, fromTs, toTs)
    {
      out := [];
      for i := 0 to |t.unexplainedStops|
        invariant out == Inside(t.unexplainedStops[..i], fromTs, toTs)
      {
        assert t.unexplainedStops[..i + 1][..i] == t.unexplainedStops[..i];
        var x := t.unexplainedStops[i];
        if fromTs <= x.startTs && x.endTs <= toTs { out := out + [x]; }
      }
      TakeAll(t.unexplainedStops);
    }
  }

  /** The stops inside a window, in order. */
  function Inside(stops: seq<Stop>, fromTs: UInt64, toTs: UInt64): (out: seq<Stop>)
    ensures forall x :: x in out <==> x in stops && fromTs <= x.startTs && x.endTs <= toTs
  {
    if |stops| == 0 then []
    else
      var before := Inside(stops[..|stops| - 1], fromTs, toTs);
      var last := stops[|stops| - 1];
      assert stops == stops[..|stops| - 1] + [last];
      if fromTs <= last.startTs && last.endTs <= toTs then before + [last] else before
  }

  /** Each suspicious stop is handed over as often as it was detected. */
  lemma {:induction false} InsideCounts(stops: seq<Stop>, fromTs: UInt64, toTs: UInt64, x: Stop)
    ensures multiset(Inside(stops, fromTs, toTs))[x]
            == if fromTs <= x.startTs && x.endTs <= toTs then multiset(stops)[x] else 0
  {
    if |stops| > 0 {
      InsideCounts(stops[..|stops| - 1], fromTs, toTs, x);
      assert stops == stops[..|stops| - 1] + [stops[|stops| - 1]];
    }
  }

  lemma SortedFacts(pings: seq<SignedPing>)
    requires |pings| > 0
    ensures var s := Sort(ByTs, pings);
            && TimeSorted(s) && |s| == |pings|
            && forall p :: p in pings ==> s[0].ts <= p.ts <= s[|s| - 1].ts
  {
    ByTsIsPreorder();
    SortSpec(ByTs, pings);
    var s := Sort(ByTs, pings);
    forall p | p in pings ensures s[0].ts <= p.ts <= s[|s| - 1].ts {
      assert p in multiset(s);
      Within(s, p);
    }
  }

  lemma Within(s: seq<SignedPing>, p: SignedPing)
    requires TimeSorted(s) && p in s
    ensures s[0].ts <= p.ts <= s[|s| - 1].ts
  {
    var i :| 0 <= i < |s| && s[i] == p;
    assert i == 0 || ByTs(s[0], s[i]);
    assert i == |s| - 1 || ByTs(s[i], s[|s| - 1]);
  }
}
