/** The eye-tracking step of a screening. A moving target visits four waypoints,
    one per 3-second segment; every face-mesh frame records how far the mean
    pupil position is from the current waypoint and how far apart the two
    pupils are horizontally. When the test ends the samples are grouped by
    segment, each segment is scored, and the segment scores are averaged and
    blended with a smoothness term into `trackingStabilityScore`. */
module Tracking {
  import opened Base
  import opened Js
  import opened Face
  import Stats
  import opened ScreeningSession

  const TestDuration: real := 12000.0

  /** The waypoints, in the order the target visits them. */
  const MoveSequence: seq<Point> := [Point(0.2, 0.5), Point(0.8, 0.5), Point(0.5, 0.2), Point(0.5, 0.8)]

  /** `TEST_DURATION_MS / MOVE_SEQUENCE.length` */
  const SegmentDuration: real := TestDuration / 4.0

  const LeftPupil: int := 468
  const RightPupil: int := 473

  /** A segment number: an index into `MoveSequence`. */
  predicate IsSegment(k: int) {
    0 <= k < |MoveSequence|
  }

  // ---------------------------------------------------------------------
  // the moving target

  /** `Math.min(MOVE_SEQUENCE.length - 1, Math.floor(elapsed / SEGMENT_DURATION))` */
  function SegmentAt(elapsed: real): (k: int)
    requires elapsed >= 0.0
    ensures IsSegment(k)
    ensures k < 3 ==> k as real * SegmentDuration <= elapsed < (k + 1) as real * SegmentDuration
    ensures k == 3 <==> elapsed >= 3.0 * SegmentDuration
  {
    MinInt(|MoveSequence| - 1, (elapsed / SegmentDuration).Floor)
  }

  /** The target never moves back to an earlier segment. */
  lemma SegmentAtMonotone(a: real, b: real)
    requires 0.0 <= a <= b
    ensures SegmentAt(a) <= SegmentAt(b)
  {
    FloorMonotone(a / SegmentDuration, b / SegmentDuration);
  }

  // ---------------------------------------------------------------------
  // samples

  datatype TrackingSample = TrackingSample(timestamp: real, distance: real, interEyeLag: real, segment: int)

  /** `Math.hypot`, as far as the score needs it: never negative. */
  ghost predicate IsHypot(hypot: (real, real) -> real) {
    forall a, b :: hypot(a, b) >= 0.0
  }

  /** The sample `captureSample` records for a frame while the target is
      in `segment`, or `None` when either pupil is missing. */
  function CaptureOf(lm: Landmarks, segment: int, hypot: (real, real) -> real, now: real): (r: Option<TrackingSample>)
    requires IsSegment(segment)
    ensures r.Some? <==> At(lm, LeftPupil).Some? && At(lm, RightPupil).Some?
    ensures r.Some? ==> r.value.segment == segment && r.value.interEyeLag >= 0.0
    ensures r.Some? && IsHypot(hypot) ==> r.value.distance >= 0.0
    ensures r.Some? ==> r.value.interEyeLag == Abs(At(lm, LeftPupil).value.x - At(lm, RightPupil).value.x)
  {
    var left := At(lm, LeftPupil);
    var right := At(lm, RightPupil);
    if left.None? || right.None? then None
    else
      var expected := MoveSequence[segment];
      var mean := Point((left.value.x + right.value.x) / 2.0, (left.value.y + right.value.y) / 2.0);
      Some(TrackingSample(now, hypot(mean.x - expected.x, mean.y - expected.y),
                          Abs(left.value.x - right.value.x), segment))
  }

  function Distances(samples: seq<TrackingSample>): (ds: seq<real>)
    ensures |ds| == |samples| && forall j :: 0 <= j < |ds| ==> ds[j] == samples[j].distance
  {
    seq(|samples|, j requires 0 <= j < |samples| => samples[j].distance)
  }

  function Lags(samples: seq<TrackingSample>): (ls: seq<real>)
    ensures |ls| == |samples| && forall j :: 0 <= j < |ls| ==> ls[j] == samples[j].interEyeLag
  {
    seq(|samples|, j requires 0 <= j < |samples| => samples[j].interEyeLag)
  }

  /** Samples whose distance and lag are both non-negative, in known segments. */
  predicate WellFormed(samples: seq<TrackingSample>) {
    forall j :: 0 <= j < |samples| ==>
      IsSegment(samples[j].segment) && samples[j].distance >= 0.0 && samples[j].interEyeLag >= 0.0
  }

  // ---------------------------------------------------------------------
  // grouping by segment

  /** The samples of one segment, in the order they were recorded. */
  function SamplesIn(samples: seq<TrackingSample>, seg: int): (r: seq<TrackingSample>)
    ensures |r| <= |samples|
    ensures forall j :: 0 <= j < |r| ==> r[j].segment == seg && r[j] in samples
  {
    if |samples| == 0 then []
    else
      var init := SamplesIn(samples[..|samples| - 1], seg);
      var last := samples[|samples| - 1];
      assert forall x :: x in samples[..|samples| - 1] ==> x in samples;
      if last.segment == seg then init + [last] else init
  }

  /** Every sample of `samples` with segment `seg` is in `SamplesIn(samples, seg)`. */
  lemma {:induction false} SamplesInComplete(samples: seq<TrackingSample>, j: int)
    requires 0 <= j < |samples|
    ensures samples[j] in SamplesIn(samples, samples[j].segment)
  {
    var init := samples[..|samples| - 1];
    if j < |samples| - 1 {
      SamplesInComplete(init, j);
      assert init[j] == samples[j];
    }
  }

  function SegmentsOf(samples: seq<TrackingSample>): set<int> {
    set j | 0 <= j < |samples| :: samples[j].segment
  }

  /** The dictionary `groupBy(samples, (s) => s.segment)` builds. */
  function Grouped(samples: seq<TrackingSample>): map<int, seq<TrackingSample>> {
    map seg | seg in SegmentsOf(samples) :: SamplesIn(samples, seg)
  }

  /** Recording one more sample adds it to the end of its own segment's
      group, creating the group if needed, and leaves the other groups alone. */
  lemma GroupedAppend(samples: seq<TrackingSample>, x: TrackingSample)
    ensures Grouped(samples + [x])
            == Grouped(samples)[x.segment := (if x.segment in Grouped(samples) then Grouped(samples)[x.segment] else []) + [x]]
  {
    var s := samples + [x];
    assert s[..|s| - 1] == samples;
    assert SegmentsOf(s) == SegmentsOf(samples) + {x.segment} by {
      forall seg | seg in SegmentsOf(s) ensures seg in SegmentsOf(samples) + {x.segment} {
        var j :| 0 <= j < |s| && s[j].segment == seg;
        if j < |samples| { assert samples[j] == s[j]; }
      }
      forall seg | seg in SegmentsOf(samples) ensures seg in SegmentsOf(s) {
        var j :| 0 <= j < |samples| && samples[j].segment == seg;
        assert s[j] == samples[j];
      }
      assert s[|samples|] == x;
    }
    if x.segment !in SegmentsOf(samples) {
      SamplesInAbsent(samples, x.segment);
    }
  }

  /** A segment with no samples has an empty group. */
  lemma {:induction false} SamplesInAbsent(samples: seq<TrackingSample>, seg: int)
    requires seg !in SegmentsOf(samples)
    ensures SamplesIn(samples, seg) == []
  {
    if |samples| > 0 {
      var init := samples[..|samples| - 1];
      SamplesInAbsent(init, seg);
      assert samples[|samples| - 1].segment != seg;
    }
  }

  /** `groupBy`: one pass over the samples, appending each to its segment's list. */
  method GroupBy(samples: seq<TrackingSample>) returns (groups: map<int, seq<TrackingSample>>)
    ensures groups == Grouped(samples)
  {
    groups := map[];
    var i := 0;
    while i < |samples|
      invariant 0 <= i <= |samples|
      invariant groups == Grouped(samples[..i])
    {
      var item := samples[i];
      var key := item.segment;
      assert samples[..i + 1] == samples[..i] + [item];
      GroupedAppend(samples[..i], item);
      if key !in groups {
        groups := groups[key := []];
      }
      groups := groups[key := groups[key] + [item]];
      i := i + 1;
    }
    assert samples[..i] == samples;
  }

  /** `Object.values(groups)`: integer keys come out in ascending order, so
      the groups of the segments present, segment 0 first. */
  function SegmentGroups(groups: map<int, seq<TrackingSample>>, from: nat): (r: seq<seq<TrackingSample>>)
    requires from <= |MoveSequence|
    ensures |r| <= |MoveSequence| - from
    decreases |MoveSequence| - from
  {
    if from == |MoveSequence| then []
    else (if from in groups then [groups[from]] else []) + SegmentGroups(groups, from + 1)
  }

  /** Each sample lands in exactly one group: the group of its own segment.
      With every segment known, the group sizes add up to the number of samples. */
  lemma {:induction false} PartitionCount(samples: seq<TrackingSample>)
    requires forall j :: 0 <= j < |samples| ==> IsSegment(samples[j].segment)
    ensures |SamplesIn(samples, 0)| + |SamplesIn(samples, 1)| + |SamplesIn(samples, 2)| + |SamplesIn(samples, 3)| == |samples|
  {
    if |samples| > 0 {
      PartitionCount(samples[..|samples| - 1]);
    }
  }

  // ---------------------------------------------------------------------
  // scores

  datatype SegmentScore = SegmentScore(distanceScore: real, lagScore: real)

  /** `{ distanceScore: max(0, 1 - 4·avgDistance), lagScore: max(0, 1 - 8·avgLag) }` */
  function ScoreSegment(group: seq<TrackingSample>): (r: SegmentScore)
    ensures 0.0 <= r.distanceScore && 0.0 <= r.lagScore
    ensures WellFormed(group) ==> r.distanceScore <= 1.0 && r.lagScore <= 1.0
    ensures |group| > 0 && WellFormed(group) && (forall j :: 0 <= j < |group| ==> group[j].distance >= 0.25)
            ==> r.distanceScore == 0.0
  {
    var avgDistance := Stats.Average(Distances(group));
    var avgLag := Stats.Average(Lags(group));
    AverageNonnegative(Distances(group));
    AverageNonnegative(Lags(group));
    AverageAtLeast(Distances(group), 0.25);
    SegmentScore(Max(0.0, 1.0 - avgDistance * 4.0), Max(0.0, 1.0 - avgLag * 8.0))
  }

  /** The mean of a list of non-negative numbers; 0 for the empty list. */
  lemma AverageNonnegative(xs: seq<real>)
    ensures (forall j :: 0 <= j < |xs| ==> xs[j] >= 0.0) ==> Stats.Average(xs) >= 0.0
  {
    if |xs| > 0 && forall j :: 0 <= j < |xs| ==> xs[j] >= 0.0 {
      Stats.AverageAtLeast(xs, 0.0);
    }
  }

  lemma AverageAtLeast(xs: seq<real>, lo: real)
    ensures |xs| > 0 && (forall j :: 0 <= j < |xs| ==> xs[j] >= lo) ==> Stats.Average(xs) >= lo
  {
    if |xs| > 0 && forall j :: 0 <= j < |xs| ==> xs[j] >= lo {
      Stats.AverageAtLeast(xs, lo);
    }
  }

  // ---------------------------------------------------------------------
  // smoothness

  /** The summed frame-to-frame change of distance over `ds[1..n]`: the pairs
      (1,2), (2,3), ..., (n-2,n-1). The pair (0,1) is not counted. */
  function TotalVariation(ds: seq<real>, n: nat): (r: real)
    requires n <= |ds|
    ensures r >= 0.0
  {
    if n <= 2 then 0.0 else TotalVariation(ds, n - 1) + Abs(ds[n - 1] - ds[n - 2])
  }

  /** `max(0, 1 - 10·mean variation)`, or 0 with fewer than three samples. */
  function Smoothness(ds: seq<real>): real {
    if |ds| < 3 then 0.0
    else Max(0.0, 1.0 - TotalVariation(ds, |ds|) / (|ds| - 2) as real * 10.0)
  }

  /** `calculateSmoothness`. The source's `if (!count) return 0` cannot fire:
      `count` is `samples.length - 2`, at least one. */
  method CalculateSmoothness(samples: seq<TrackingSample>) returns (r: real)
    ensures r == Smoothness(Distances(samples))
  {
    if |samples| < 3 {
      return 0.0;
    }
    ghost var ds := Distances(samples);
    var totalVariation := 0.0;
    var count := 0;
    var i := 2;
    while i < |samples|
      invariant 2 <= i <= |samples|
      invariant count == i - 2
      invariant totalVariation == TotalVariation(ds, i)
    {
      var prev := samples[i - 1];
      var curr := samples[i];
      var variation := Abs(curr.distance - prev.distance);
      totalVariation := totalVariation + variation;
      count := count + 1;
      i := i + 1;
    }
    var avgVariation := totalVariation / count as real;
    r := Max(0.0, 1.0 - avgVariation * 10.0);
  }

  lemma SmoothnessBounds(ds: seq<real>)
    ensures 0.0 <= Smoothness(ds) <= 1.0
  {
    if |ds| >= 3 {
      var t := TotalVariation(ds, |ds|);
      var c := (|ds| - 2) as real;
      assert t / c >= 0.0;
    }
  }

  /** A gaze that keeps the same distance from the target scores full smoothness. */
  lemma {:induction false} ConstantVariation(ds: seq<real>, n: nat)
    requires n <= |ds|
    requires forall j :: 0 <= j < |ds| ==> ds[j] == ds[0]
    ensures TotalVariation(ds, n) == 0.0
  {
    if n > 2 {
      ConstantVariation(ds, n - 1);
    }
  }

  lemma SmoothnessConstant(ds: seq<real>)
    requires |ds| >= 3
    requires forall j :: 0 <= j < |ds| ==> ds[j] == ds[0]
    ensures Smoothness(ds) == 1.0
  {
    ConstantVariation(ds, |ds|);
  }

  /** The first sample's distance plays no part in the smoothness. */
  lemma {:induction false} VariationIgnoresFirst(ds: seq<real>, v: real, n: nat)
    requires 1 <= |ds| && n <= |ds|
    ensures TotalVariation(ds[0 := v], n) == TotalVariation(ds, n)
  {
    if n > 2 {
      VariationIgnoresFirst(ds, v, n - 1);
    }
  }

  lemma SmoothnessIgnoresFirst(ds: seq<real>, v: real)
    requires |ds| >= 1
    ensures Smoothness(ds[0 := v]) == Smoothness(ds)
  {
    VariationIgnoresFirst(ds, v, |ds|);
  }

  // ---------------------------------------------------------------------
  // the tracking score

  /** `{ trackingStabilityScore, lagScore, distanceScore, smoothness }`;
      `distanceScore` is absent from the score of an empty test. */
  datatype TrackingScore = TrackingScore(trackingStabilityScore: real, lagScore: real,
                                         distanceScore: Option<real>, smoothness: real)

  function DistanceScores(scores: seq<SegmentScore>): (r: seq<real>)
    ensures |r| == |scores| && forall j :: 0 <= j < |r| ==> r[j] == scores[j].distanceScore
  {
    seq(|scores|, j requires 0 <= j < |scores| => scores[j].distanceScore)
  }

  function LagScores(scores: seq<SegmentScore>): (r: seq<real>)
    ensures |r| == |scores| && forall j :: 0 <= j < |r| ==> r[j] == scores[j].lagScore
  {
    seq(|scores|, j requires 0 <= j < |scores| => scores[j].lagScore)
  }

  function ScoreSegments(groups: seq<seq<TrackingSample>>): (r: seq<SegmentScore>)
    ensures |r| == |groups| && forall j :: 0 <= j < |r| ==> r[j] == ScoreSegment(groups[j])
  {
    seq(|groups|, j requires 0 <= j < |groups| => ScoreSegment(groups[j]))
  }

  /** The blend `0.6·distance + 0.25·lag + 0.15·smoothness`, to two decimals. */
  function Stability(distanceScore: real, lagScore: real, smoothness: real): (r: real)
    requires 0.0 <= distanceScore <= 1.0 && 0.0 <= lagScore <= 1.0 && 0.0 <= smoothness <= 1.0
    ensures 0.0 <= r <= 1.0
    ensures Abs(r - (distanceScore * 0.6 + lagScore * 0.25 + smoothness * 0.15)) <= 0.005
  {
    var raw := distanceScore * 0.6 + lagScore * 0.25 + smoothness * 0.15;
    Round2UnitInterval(raw);
    Round2Near(raw);
    Round2(raw)
  }

  predicate UnitSegment(s: SegmentScore) {
    0.0 <= s.distanceScore <= 1.0 && 0.0 <= s.lagScore <= 1.0
  }

  /** The score of a non-empty test from its segment scores and smoothness:
      each segment weighs the same, however many samples it holds. */
  function Combine(segmentScores: seq<SegmentScore>, smoothness: real): (r: TrackingScore)
    requires forall j :: 0 <= j < |segmentScores| ==> UnitSegment(segmentScores[j])
    requires 0.0 <= smoothness <= 1.0
    ensures r.distanceScore.Some? && r.smoothness == smoothness
    ensures 0.0 <= r.trackingStabilityScore <= 1.0 && 0.0 <= r.lagScore <= 1.0 && 0.0 <= r.distanceScore.value <= 1.0
    ensures r.lagScore == Stats.Average(LagScores(segmentScores))
    ensures r.distanceScore.value == Stats.Average(DistanceScores(segmentScores))
  {
    var distanceScore := Stats.Average(DistanceScores(segmentScores));
    var lagScore := Stats.Average(LagScores(segmentScores));
    assert forall j :: 0 <= j < |segmentScores| ==> UnitSegment(segmentScores[j]);
    UnitAverage(DistanceScores(segmentScores));
    UnitAverage(LagScores(segmentScores));
    TrackingScore(Stability(distanceScore, lagScore, smoothness), lagScore, Some(distanceScore), smoothness)
  }

  /** What `finishTest` scores: zeroes for an empty test, otherwise the
      segments present, in segment order, combined with the smoothness. */
  function ScoreOf(samples: seq<TrackingSample>): (r: TrackingScore)
    requires WellFormed(samples)
    ensures 0.0 <= r.trackingStabilityScore <= 1.0
    ensures r.distanceScore.None? <==> |samples| == 0
    ensures |samples| == 0 ==> r == TrackingScore(0.0, 0.0, None, 0.0)
    ensures |samples| > 0 ==>
              var scores := ScoreSegments(SegmentGroups(Grouped(samples), 0));
              && r.distanceScore == Some(Stats.Average(DistanceScores(scores)))
              && r.lagScore == Stats.Average(LagScores(scores))
              && r.smoothness == Smoothness(Distances(samples))
              && Abs(r.trackingStabilityScore - (r.distanceScore.value * 0.6 + r.lagScore * 0.25 + r.smoothness * 0.15)) <= 0.005
  {
    if |samples| == 0 then TrackingScore(0.0, 0.0, None, 0.0)
    else
      var groups := SegmentGroups(Grouped(samples), 0);
      SegmentGroupsWellFormed(samples, 0);
      SmoothnessBounds(Distances(samples));
      Combine(ScoreSegments(groups), Smoothness(Distances(samples)))
  }

  /** A test whose samples all fall in one segment scores exactly that
      segment's distance and lag scores. */
  lemma OneSegmentScore(samples: seq<TrackingSample>, seg: int)
    requires WellFormed(samples) && |samples| > 0
    requires forall j :: 0 <= j < |samples| ==> samples[j].segment == seg
    ensures ScoreOf(samples).distanceScore == Some(ScoreSegment(samples).distanceScore)
    ensures ScoreOf(samples).lagScore == ScoreSegment(samples).lagScore
  {
    assert samples[0].segment == seg;
    assert SegmentsOf(samples) == {seg};
    SamplesInAll(samples, seg);
    assert Grouped(samples) == map[seg := samples];
    assert IsSegment(seg);
    SegmentGroupsSingle(map[seg := samples], seg, 0);
    var scores := ScoreSegments([samples]);
    Stats.AverageConstant(DistanceScores(scores), scores[0].distanceScore);
    Stats.AverageConstant(LagScores(scores), scores[0].lagScore);
  }

  /** When every sample is in `seg`, its group is all of them. */
  lemma {:induction false} SamplesInAll(samples: seq<TrackingSample>, seg: int)
    requires forall j :: 0 <= j < |samples| ==> samples[j].segment == seg
    ensures SamplesIn(samples, seg) == samples
  {
    if |samples| > 0 {
      var init := samples[..|samples| - 1];
      SamplesInAll(init, seg);
      assert init + [samples[|samples| - 1]] == samples;
    }
  }

  /** A dictionary with one segment's group lists just that group. */
  lemma {:induction false} SegmentGroupsSingle(groups: map<int, seq<TrackingSample>>, seg: int, from: nat)
    requires groups.Keys == {seg} && from <= |MoveSequence| && 0 <= seg < |MoveSequence|
    ensures SegmentGroups(groups, from) == if from <= seg then [groups[seg]] else []
    decreases |MoveSequence| - from
  {
    if from < |MoveSequence| {
      SegmentGroupsSingle(groups, seg, from + 1);
    }
  }

  /** Every group `SegmentGroups` lists is a well-formed group of the samples. */
  lemma {:induction false} SegmentGroupsWellFormed(samples: seq<TrackingSample>, from: nat)
    requires WellFormed(samples) && from <= |MoveSequence|
    ensures forall j :: 0 <= j < |SegmentGroups(Grouped(samples), from)| ==>
              WellFormed(SegmentGroups(Grouped(samples), from)[j])
    decreases |MoveSequence| - from
  {
    if from < |MoveSequence| {
      SegmentGroupsWellFormed(samples, from + 1);
      if from in Grouped(samples) {
        SamplesInWellFormed(samples, from);
      }
    }
  }

  lemma SamplesInWellFormed(samples: seq<TrackingSample>, seg: int)
    requires WellFormed(samples)
    ensures WellFormed(SamplesIn(samples, seg))
  {
    var r := SamplesIn(samples, seg);
    forall j | 0 <= j < |r|
      ensures IsSegment(r[j].segment) && r[j].distance >= 0.0 && r[j].interEyeLag >= 0.0
    {
      var k :| 0 <= k < |samples| && samples[k] == r[j];
    }
  }

  lemma UnitAverage(xs: seq<real>)
    requires forall j :: 0 <= j < |xs| ==> 0.0 <= xs[j] <= 1.0
    ensures 0.0 <= Stats.Average(xs) <= 1.0
  {
    if |xs| > 0 {
      Stats.AverageBounds(xs, 0.0, 1.0);
    }
  }

  /** Every group `SegmentGroups` lists is the group of a segment present,
      and the group of every segment present is listed. */
  lemma {:induction false} SegmentGroupsMembers(groups: map<int, seq<TrackingSample>>, from: nat, g: seq<TrackingSample>)
    requires from <= |MoveSequence|
    ensures g in SegmentGroups(groups, from) <==>
              exists k :: from <= k < |MoveSequence| && k in groups && groups[k] == g
    decreases |MoveSequence| - from
  {
    if from < |MoveSequence| {
      SegmentGroupsMembers(groups, from + 1, g);
      if from in groups && groups[from] == g {
        assert g in SegmentGroups(groups, from);
      }
    }
  }

  /** The computation in `finishTest`: group, score each segment, measure
      the smoothness and blend. */
  method ComputeScore(samples: seq<TrackingSample>) returns (s: TrackingScore)
    requires WellFormed(samples)
    ensures s == ScoreOf(samples)
  {
    if |samples| == 0 {
      return TrackingScore(0.0, 0.0, None, 0.0);
    }
    var segments := GroupBy(samples);
    var segmentScores := ScoreSegments(SegmentGroups(segments, 0));
    SegmentGroupsWellFormed(samples, 0);
    var smoothness := CalculateSmoothness(samples);
    SmoothnessBounds(Distances(samples));
    s := Combine(segmentScores, smoothness);
  }

  // ---------------------------------------------------------------------
  // the page

  class TrackingTest {
    const store: SessionStore
    var testState: TestState
    var segmentIndex: int
    var samples: seq<TrackingSample>
    var score: Option<TrackingScore>
    /** `startTimestamp.current`: `None` for `null`. */
    var startTimestamp: Option<real>

    ghost predicate Valid()
      reads this
    {
      IsSegment(segmentIndex) && WellFormed(samples)
    }

    constructor (store: SessionStore)
      ensures Valid() && this.store == store
      ensures testState == Idle && segmentIndex == 0 && samples == [] && score == None && startTimestamp == None
    {
      this.store := store;
      testState := Idle;
      segmentIndex := 0;
      samples := [];
      score := None;
      startTimestamp := None;
    }

    /** `startTest`: an empty buffer, no score, the target back on the first
        waypoint and the clock unset. */
    method StartTest()
      modifies this
      ensures Valid()
      ensures samples == [] && score == None && testState == Running && segmentIndex == 0 && startTimestamp == None
    {
      samples := [];
      score := None;
      testState := Running;
      segmentIndex := 0;
      startTimestamp := None;
    }

    /** One animation frame at `timestamp`: a clock that is unset (or 0)
        starts now, and the target moves to the segment of the time elapsed. */
    method AnimatePointer(timestamp: real)
      requires Valid()
      requires startTimestamp.Some? && startTimestamp.value != 0.0 ==> timestamp >= startTimestamp.value
      modifies this
      ensures Valid()
      ensures testState == old(testState) && samples == old(samples) && score == old(score)
      ensures old(testState) != Running ==> segmentIndex == old(segmentIndex) && startTimestamp == old(startTimestamp)
      ensures old(testState) == Running ==>
                startTimestamp == (if old(startTimestamp).None? || old(startTimestamp) == Some(0.0)
                                   then Some(timestamp) else old(startTimestamp))
                && segmentIndex == SegmentAt(timestamp - startTimestamp.value)
    {
      if testState != Running {
        return;
      }
      if startTimestamp.None? || startTimestamp.value == 0.0 {
        startTimestamp := Some(timestamp);
      }
      var elapsed := timestamp - startTimestamp.value;
      segmentIndex := SegmentAt(elapsed);
    }

    /** A face-mesh result: while the test runs, a frame with both pupils
        appends one sample for the current segment. */
    method OnResults(face: Option<Landmarks>, hypot: (real, real) -> real, now: real)
      requires Valid() && IsHypot(hypot)
      modifies this
      ensures Valid()
      ensures testState == old(testState) && segmentIndex == old(segmentIndex) && score == old(score)
      ensures startTimestamp == old(startTimestamp)
      ensures samples == if old(testState) == Running && face.Some? && CaptureOf(face.value, segmentIndex, hypot, now).Some?
                         then old(samples) + [CaptureOf(face.value, segmentIndex, hypot, now).value]
                         else old(samples)
    {
      if testState == Running && face.Some? {
        var sample := CaptureOf(face.value, segmentIndex, hypot, now);
        if sample.Some? {
          samples := samples + [sample.value];
        }
      }
    }

    /** `finishTest`, followed by the effect that copies the new
        `trackingStabilityScore` into the screening session. */
    method FinishTest()
      requires Valid() && store.Valid()
      modifies this, store
      ensures Valid() && store.Valid()
      ensures testState == Complete && samples == old(samples) && segmentIndex == old(segmentIndex)
      ensures score == Some(ScoreOf(old(samples)))
      ensures store.hasWindow ==> Get(Fields(store.Read()), "trackingStabilityScore") == Num(score.value.trackingStabilityScore)
      ensures store.hasWindow ==> forall k :: k != "trackingStabilityScore" ==>
                Get(Fields(store.Read()), k) == Get(Fields(old(store.Read())), k)
    {
      testState := Complete;
      var s := ComputeScore(samples);
      score := Some(s);
      store.MergeScore("trackingStabilityScore", s.trackingStabilityScore);
    }

    /** `handleContinue`: with a score, writes it into the stored session and
        moves on to the contrast step; returns the page it navigates to.
        Nothing stored and the empty string both read as `{}` (`raw || "{}"`);
        text that does not parse throws, and nothing happens. */
    method HandleContinue() returns (next: Option<string>)
      requires store.Valid()
      modifies store
      ensures store.Valid()
      ensures next.Some? <==> score.Some? && store.hasWindow && old(store.entry) != Some(Unparsable)
      ensures next.Some? ==> next.value == "/screening/contrast"
      ensures next.None? ==> store.entry == old(store.entry)
      ensures next.Some? ==> Get(Fields(store.Read()), "trackingStabilityScore") == Num(score.value.trackingStabilityScore)
      ensures next.Some? ==> forall k :: k != "trackingStabilityScore" ==>
                Get(Fields(store.Read()), k) == Get(Fields(old(store.Read())), k)
    {
      if score.None? || !store.hasWindow || store.entry == Some(Unparsable) {
        return None;
      }
      store.MergeScore("trackingStabilityScore", score.value.trackingStabilityScore);
      next := Some("/screening/contrast");
    }
  }
}
