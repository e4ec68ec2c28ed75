/** The eye-alignment step of a screening. While the test runs, every frame
    of face landmarks yields one sample: how far the two eye centres are from
    mirror symmetry, horizontally and vertically, and the tilt of the nose
    bridge. When the test ends, the spread (standard deviation) of each measure
    over the samples is turned into a score in [0, 1]; a steady, symmetric
    face scores 1. */
module Alignment {
  import opened Base
  import opened Js
  import opened Face
  import Stats
  import opened ScreeningSession

  const SymmetryThreshold: real := 0.08
  const DeviationThreshold: real := 0.1
  const AngleThreshold: real := 0.05

  /** Landmark numbers of the two points averaged into each eye centre, and
      of the top and bottom of the nose bridge. */
  const LeftEyeCenter: seq<int> := [33, 133]
  const RightEyeCenter: seq<int> := [362, 263]
  const NoseBridge: seq<int> := [6, 168]

  // ---------------------------------------------------------------------
  // per-frame measures

  /** `indices.map((i) => landmarks[i]).filter(Boolean)`: the reported
      points among `indices`, in order. */
  function PresentPoints(lm: Landmarks, indices: seq<int>): (ps: seq<Point>)
    ensures |ps| <= |indices|
    ensures |ps| == 0 <==> forall k :: 0 <= k < |indices| ==> At(lm, indices[k]).None?
    ensures forall j :: 0 <= j < |ps| ==> exists k :: 0 <= k < |indices| && At(lm, indices[k]) == Some(ps[j])
    ensures forall k :: 0 <= k < |indices| && At(lm, indices[k]).Some? ==> At(lm, indices[k]).value in ps
    ensures |indices| == 1 ==> ps == if At(lm, indices[0]).Some? then [At(lm, indices[0]).value] else []
  {
    if |indices| == 0 then []
    else
      var rest := PresentPoints(lm, indices[1..]);
      assert forall k :: 1 <= k < |indices| ==> indices[k] == indices[1..][k - 1];
      match At(lm, indices[0])
      case Some(p) => [p] + rest
      case None => rest
  }

  /** The points of two index lists in a row are the points of the first
      followed by those of the second. With the single-index case this
      fixes the result: every reported point is kept, in index order, and
      nothing else. */
  lemma {:induction false} PresentPointsConcat(lm: Landmarks, a: seq<int>, b: seq<int>)
    ensures PresentPoints(lm, a + b) == PresentPoints(lm, a) + PresentPoints(lm, b)
  {
    if |a| > 0 {
      assert (a + b)[1..] == a[1..] + b;
      assert (a + b)[0] == a[0];
      PresentPointsConcat(lm, a[1..], b);
    } else {
      assert a + b == b;
    }
  }

  /** A reported landmark sits in the output after the points reported
      before it and before the points reported after it. */
  lemma PresentPointsAround(lm: Landmarks, indices: seq<int>, k: int)
    requires 0 <= k < |indices| && At(lm, indices[k]).Some?
    ensures PresentPoints(lm, indices)
            == PresentPoints(lm, indices[..k]) + [At(lm, indices[k]).value] + PresentPoints(lm, indices[k + 1..])
  {
    assert indices == indices[..k] + ([indices[k]] + indices[k + 1..]);
    PresentPointsConcat(lm, indices[..k], [indices[k]] + indices[k + 1..]);
    PresentPointsConcat(lm, [indices[k]], indices[k + 1..]);
  }

  function Xs(ps: seq<Point>): (xs: seq<real>)
    ensures |xs| == |ps| && forall j :: 0 <= j < |ps| ==> xs[j] == ps[j].x
  {
    seq(|ps|, j requires 0 <= j < |ps| => ps[j].x)
  }

  function Ys(ps: seq<Point>): (ys: seq<real>)
    ensures |ys| == |ps| && forall j :: 0 <= j < |ps| ==> ys[j] == ps[j].y
  {
    seq(|ps|, j requires 0 <= j < |ps| => ps[j].y)
  }

  /** `averagePoint(landmarks, indices)`: `None` (null) when none of the
      points is reported, otherwise the centroid of the reported ones. */
  function AveragePoint(lm: Landmarks, indices: seq<int>): (r: Option<Point>)
    ensures r.None? <==> forall k :: 0 <= k < |indices| ==> At(lm, indices[k]).None?
    ensures r.Some? ==> var ps := PresentPoints(lm, indices);
                        r.value == Point(Stats.Average(Xs(ps)), Stats.Average(Ys(ps)))
  {
    var ps := PresentPoints(lm, indices);
    if |ps| == 0 then None
    else Some(Point(Stats.Average(Xs(ps)), Stats.Average(Ys(ps))))
  }

  /** An eye centre from its two landmarks: their midpoint when both are
      reported, the one reported point when the other is missing. */
  lemma AveragePointOfPair(lm: Landmarks, a: int, b: int)
    ensures At(lm, a).Some? && At(lm, b).Some? ==>
              var p := At(lm, a).value; var q := At(lm, b).value;
              AveragePoint(lm, [a, b]) == Some(Point((p.x + q.x) / 2.0, (p.y + q.y) / 2.0))
    ensures At(lm, a).Some? && At(lm, b).None? ==> AveragePoint(lm, [a, b]) == At(lm, a)
    ensures At(lm, a).None? && At(lm, b).Some? ==> AveragePoint(lm, [a, b]) == At(lm, b)
  {
    PairPoints(lm, a, b);
    CentroidOfFew(PresentPoints(lm, [a, b]));
  }

  lemma PairPoints(lm: Landmarks, a: int, b: int)
    ensures PresentPoints(lm, [a, b]) == (if At(lm, a).Some? then [At(lm, a).value] else [])
                                          + (if At(lm, b).Some? then [At(lm, b).value] else [])
  {
    assert [a, b] == [a] + [b];
    PresentPointsConcat(lm, [a], [b]);
  }

  /** The centroid of one point is that point, of two their midpoint. */
  lemma CentroidOfFew(ps: seq<Point>)
    ensures |ps| == 1 ==> Point(Stats.Average(Xs(ps)), Stats.Average(Ys(ps))) == ps[0]
    ensures |ps| == 2 ==> Point(Stats.Average(Xs(ps)), Stats.Average(Ys(ps)))
                          == Point((ps[0].x + ps[1].x) / 2.0, (ps[0].y + ps[1].y) / 2.0)
  {
    if |ps| == 1 {
      Stats.AverageConstant(Xs(ps), ps[0].x);
      Stats.AverageConstant(Ys(ps), ps[0].y);
    } else if |ps| == 2 {
      Stats.AveragePair(Xs(ps));
      Stats.AveragePair(Ys(ps));
    }
  }

  /** The centroid lies in every axis-aligned box that holds all the
      reported points; points that are missing do not pull it anywhere. */
  lemma AveragePointWithin(lm: Landmarks, indices: seq<int>, lo: Point, hi: Point)
    requires forall k :: 0 <= k < |indices| && At(lm, indices[k]).Some? ==>
               var p := At(lm, indices[k]).value; lo.x <= p.x <= hi.x && lo.y <= p.y <= hi.y
    requires AveragePoint(lm, indices).Some?
    ensures var c := AveragePoint(lm, indices).value; lo.x <= c.x <= hi.x && lo.y <= c.y <= hi.y
  {
    var ps := PresentPoints(lm, indices);
    forall j | 0 <= j < |ps|
      ensures lo.x <= ps[j].x <= hi.x && lo.y <= ps[j].y <= hi.y
    {
      var k :| 0 <= k < |indices| && At(lm, indices[k]) == Some(ps[j]);
    }
    Stats.AverageBounds(Xs(ps), lo.x, hi.x);
    Stats.AverageBounds(Ys(ps), lo.y, hi.y);
  }

  /** One frame's measures. */
  datatype AlignmentSample = AlignmentSample(
    timestamp: real,
    horizontalDeviation: real,
    verticalDeviation: real,
    noseAngle: real)

  /** The measures `collectSample` records for one frame, or `None` when an
      eye centre or a nose-bridge point is missing. `atan2` stands for
      `Math.atan2`. */
  function DeriveSample(lm: Landmarks, atan2: (real, real) -> real, now: real): (r: Option<AlignmentSample>)
    ensures r.Some? <==> AveragePoint(lm, LeftEyeCenter).Some? && AveragePoint(lm, RightEyeCenter).Some?
                         && At(lm, NoseBridge[0]).Some? && At(lm, NoseBridge[1]).Some?
    ensures r.Some? ==> r.value.horizontalDeviation >= 0.0 && r.value.verticalDeviation >= 0.0
  {
    var left := AveragePoint(lm, LeftEyeCenter);
    var right := AveragePoint(lm, RightEyeCenter);
    var top := At(lm, NoseBridge[0]);
    var bottom := At(lm, NoseBridge[1]);
    if left.None? || right.None? || top.None? || bottom.None? then None
    else
      Some(AlignmentSample(
        now,
        Abs(left.value.x - (1.0 - right.value.x)),
        Abs(left.value.y - right.value.y),
        atan2(bottom.value.x - top.value.x, bottom.value.y - top.value.y)))
  }

  /** Eye centres that mirror each other across the vertical midline of the
      image, at the same height, give zero deviation. */
  lemma MirroredEyesNoDeviation(lm: Landmarks, atan2: (real, real) -> real, now: real)
    requires DeriveSample(lm, atan2, now).Some?
    requires var l := AveragePoint(lm, LeftEyeCenter).value; var r := AveragePoint(lm, RightEyeCenter).value;
             l.x == 1.0 - r.x && l.y == r.y
    ensures DeriveSample(lm, atan2, now).value.horizontalDeviation == 0.0
    ensures DeriveSample(lm, atan2, now).value.verticalDeviation == 0.0
  {
  }

  // ---------------------------------------------------------------------
  // the score

  datatype AlignmentScore = AlignmentScore(
    symmetryRatio: real,
    deviationScore: real,
    angleScore: Option<real>,
    alignmentDeviationScore: real)

  /** `1 - Math.min(spread / threshold, 1)` */
  function SubTerm(spread: real, threshold: real): (r: real)
    requires threshold > 0.0
    ensures spread >= 0.0 ==> 0.0 <= r <= 1.0
    ensures spread >= threshold ==> r == 0.0
    ensures spread <= 0.0 ==> r >= 1.0
  {
    1.0 - Min(spread / threshold, 1.0)
  }

  /** A larger spread never gives a larger sub-term. */
  lemma SubTermAntitone(a: real, b: real, threshold: real)
    requires threshold > 0.0 && a <= b
    ensures SubTerm(b, threshold) <= SubTerm(a, threshold)
  {
    assert a / threshold <= b / threshold;
  }

  /** `Math.max(0, Number((0.5·sym + 0.3·dev + 0.2·angle).toFixed(2)))` */
  function Blend(symmetry: real, deviation: real, angle: real): (r: real)
    ensures 0.0 <= symmetry <= 1.0 && 0.0 <= deviation <= 1.0 && 0.0 <= angle <= 1.0 ==> 0.0 <= r <= 1.0
  {
    var raw := symmetry * 0.5 + deviation * 0.3 + angle * 0.2;
    Round2UnitIntervalOrAbove(raw);
    Max(0.0, Round2(raw))
  }

  lemma Round2UnitIntervalOrAbove(x: real)
    ensures 0.0 <= x <= 1.0 ==> 0.0 <= Round2(x) <= 1.0
  {
    if 0.0 <= x <= 1.0 {
      Round2UnitInterval(x);
    }
  }

  /** The score `finalizeScore` sets for the buffered samples: a fixed
      default when there are none, otherwise the score of the three spreads. */
  function ScoreOf(samples: seq<AlignmentSample>, sqrt: real -> real): (s: AlignmentScore)
    requires Stats.IsSqrt(sqrt)
    ensures |samples| == 0 ==> s == AlignmentScore(0.0, 1.0, None, 1.0)
    ensures |samples| > 0 ==> s.angleScore.Some?
    ensures 0.0 <= s.alignmentDeviationScore <= 1.0
  {
    if |samples| == 0 then AlignmentScore(0.0, 1.0, None, 1.0)
    else
      FromSpreads(
        Stats.StandardDeviation(Horizontal(samples), sqrt),
        Stats.StandardDeviation(Vertical(samples), sqrt),
        Stats.StandardDeviation(Angles(samples), sqrt))
  }

  /** The score of the three spreads: each sub-term in [0, 1], blended. */
  function FromSpreads(horizontal: real, vertical: real, angle: real): (s: AlignmentScore)
    requires horizontal >= 0.0 && vertical >= 0.0
    ensures s.angleScore.Some?
    ensures 0.0 <= s.symmetryRatio <= 1.0 && 0.0 <= s.deviationScore <= 1.0 && 0.0 <= s.angleScore.value <= 1.0
    ensures s.alignmentDeviationScore == Blend(s.symmetryRatio, s.deviationScore, s.angleScore.value)
    ensures 0.0 <= s.alignmentDeviationScore <= 1.0
  {
    var symmetryRatio := SubTerm(horizontal, SymmetryThreshold);
    var deviationScore := SubTerm(vertical, DeviationThreshold);
    var angleScore := SubTerm(Abs(angle), AngleThreshold);
    AlignmentScore(symmetryRatio, deviationScore, Some(angleScore),
                   Blend(symmetryRatio, deviationScore, angleScore))
  }

  function Horizontal(samples: seq<AlignmentSample>): (xs: seq<real>)
    ensures |xs| == |samples| && forall j :: 0 <= j < |xs| ==> xs[j] == samples[j].horizontalDeviation
  {
    seq(|samples|, j requires 0 <= j < |samples| => samples[j].horizontalDeviation)
  }

  function Vertical(samples: seq<AlignmentSample>): (xs: seq<real>)
    ensures |xs| == |samples| && forall j :: 0 <= j < |xs| ==> xs[j] == samples[j].verticalDeviation
  {
    seq(|samples|, j requires 0 <= j < |samples| => samples[j].verticalDeviation)
  }

  function Angles(samples: seq<AlignmentSample>): (xs: seq<real>)
    ensures |xs| == |samples| && forall j :: 0 <= j < |xs| ==> xs[j] == samples[j].noseAngle
  {
    seq(|samples|, j requires 0 <= j < |samples| => samples[j].noseAngle)
  }

  /** No spread at all scores exactly 1. */
  lemma NoSpreadScoresOne()
    ensures FromSpreads(0.0, 0.0, 0.0).alignmentDeviationScore == 1.0
  {
    Round2OfCents(100);
  }

  /** Spreads at or beyond their thresholds score 0. */
  lemma FullSpreadScoresZero(horizontal: real, vertical: real, angle: real)
    requires horizontal >= SymmetryThreshold && vertical >= DeviationThreshold && Abs(angle) >= AngleThreshold
    ensures FromSpreads(horizontal, vertical, angle).alignmentDeviationScore == 0.0
  {
    Round2OfCents(0);
  }

  /** A face that holds perfectly still (every sample has the same three
      measures) scores exactly 1. */
  lemma SteadyFaceScoresOne(samples: seq<AlignmentSample>, sqrt: real -> real)
    requires Stats.IsSqrt(sqrt)
    requires |samples| > 0
    requires forall j :: 0 <= j < |samples| ==>
               && samples[j].horizontalDeviation == samples[0].horizontalDeviation
               && samples[j].verticalDeviation == samples[0].verticalDeviation
               && samples[j].noseAngle == samples[0].noseAngle
    ensures ScoreOf(samples, sqrt).alignmentDeviationScore == 1.0
  {
    Stats.StandardDeviationConstant(Horizontal(samples), samples[0].horizontalDeviation, sqrt);
    Stats.StandardDeviationConstant(Vertical(samples), samples[0].verticalDeviation, sqrt);
    Stats.StandardDeviationConstant(Angles(samples), samples[0].noseAngle, sqrt);
    NoSpreadScoresOne();
  }

  /** The message shown with a score: "Excellent alignment" above 0.7,
      "Mild deviation detected" above 0.4, "Significant asymmetry detected"
      otherwise. */
  function StatusLabel(score: real): string {
    if score > 0.7 then "Excellent alignment"
    else if score > 0.4 then "Mild deviation detected"
    else "Significant asymmetry detected"
  }

  /** How favourable a label is: 2 for excellent, 1 for mild, 0 for significant. */
  function LabelRank(text: string): nat {
    if text == "Excellent alignment" then 2 else if text == "Mild deviation detected" then 1 else 0
  }

  /** A higher score never gets a less favourable label, and the bands meet
      at 0.4 and 0.7 with the boundary in the lower band. */
  lemma StatusLabelMonotone(a: real, b: real)
    requires a <= b
    ensures LabelRank(StatusLabel(a)) <= LabelRank(StatusLabel(b))
    ensures LabelRank(StatusLabel(a)) == (if a > 0.7 then 2 else if a > 0.4 then 1 else 0)
  {
  }

  // ---------------------------------------------------------------------
  // the page

  class AlignmentTest {
    const store: SessionStore
    var testState: TestState
    var score: Option<AlignmentScore>
    var samples: seq<AlignmentSample>

    constructor (store: SessionStore)
      ensures this.store == store && testState == Idle && score == None && samples == []
    {
      this.store := store;
      testState := Idle;
      score := None;
      samples := [];
    }

    /** `startTest`: an empty buffer, no score, and the test running. */
    method StartTest()
      modifies this
      ensures samples == [] && score == None && testState == Running
    {
      samples := [];
      score := None;
      testState := Running;
    }

    /** A face-mesh result: while the test runs, a frame with a face whose
        eye centres and nose bridge are all reported appends one sample. */
    method OnResults(face: Option<Landmarks>, atan2: (real, real) -> real, now: real)
      modifies this
      ensures testState == old(testState) && score == old(score)
      ensures samples == if old(testState) == Running && face.Some? && DeriveSample(face.value, atan2, now).Some?
                         then old(samples) + [DeriveSample(face.value, atan2, now).value]
                         else old(samples)
    {
      if testState == Running && face.Some? {
        var sample := DeriveSample(face.value, atan2, now);
        if sample.Some? {
          samples := samples + [sample.value];
        }
      }
    }

    /** `finalizeScore`, followed by the effect that copies the new
        `alignmentDeviationScore` into the screening session. */
    method FinalizeScore(sqrt: real -> real)
      requires Stats.IsSqrt(sqrt) && store.Valid()
      modifies this, store
      ensures store.Valid()
      ensures testState == Complete && samples == old(samples)
      ensures score == Some(ScoreOf(old(samples), sqrt))
      ensures store.hasWindow ==> Get(Fields(store.Read()), "alignmentDeviationScore") == Num(score.value.alignmentDeviationScore)
      ensures store.hasWindow ==> forall k :: k != "alignmentDeviationScore" ==>
                Get(Fields(store.Read()), k) == Get(Fields(old(store.Read())), k)
    {
      testState := Complete;
      var s := ScoreOf(samples, sqrt);
      score := Some(s);
      store.MergeScore("alignmentDeviationScore", s.alignmentDeviationScore);
    }

    /** `resultSummary.statusLabel`: none until there is a score. */
    function Summary(): (r: Option<string>)
      reads this
      ensures r.Some? <==> score.Some?
      ensures r.Some? ==> r.value == StatusLabel(score.value.alignmentDeviationScore)
    {
      match score
      case None => None
      case Some(s) => Some(StatusLabel(s.alignmentDeviationScore))
    }
  }
}
