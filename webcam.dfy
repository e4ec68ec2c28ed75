/** The webcam readiness check before a screening: a frame is ready when
    the face is centred, both eyes are open about equally, and the lighting
    is neither dim nor unmeasured. */
module Webcam {
  import opened Base
  import opened Face

  const FaceCenterThreshold: real := 0.08
  const EyeVisibilityThreshold: real := 0.12
  const MinEyeHeight: real := 0.02

  const Nose: int := 1
  const LeftEyeIndices: seq<int> := [33, 7, 163, 144, 145, 153, 154, 155]
  const RightEyeIndices: seq<int> := [263, 249, 390, 373, 374, 380, 381, 382]

  // ---------------------------------------------------------------------
  // face and eyes

  /** `checkFaceCentered`: the nose tip within 0.08 of the frame centre on
      both axes. The source destructures `landmarks[1]`, so the nose must be
      there. */
  function CheckFaceCentered(lm: Landmarks): (r: bool)
    requires At(lm, Nose).Some?
    ensures r <==> Abs(At(lm, Nose).value.x - 0.5) < FaceCenterThreshold && Abs(At(lm, Nose).value.y - 0.5) < FaceCenterThreshold
  {
    var nose := At(lm, Nose).value;
    Abs(nose.x - 0.5) < FaceCenterThreshold && Abs(nose.y - 0.5) < FaceCenterThreshold
  }

  /** `selectLandmarks(landmarks, indices)`: one entry per index, possibly missing. */
  function SelectLandmarks(lm: Landmarks, indices: seq<int>): (r: seq<Option<Point>>)
    ensures |r| == |indices| && forall j :: 0 <= j < |r| ==> r[j] == At(lm, indices[j])
  {
    seq(|indices|, j requires 0 <= j < |indices| => At(lm, indices[j]))
  }

  /** `verticalEyeDistance`: the height between the second and sixth eye
      points, or 0 when either is missing. */
  function VerticalEyeDistance(eye: seq<Option<Point>>): (h: real)
    ensures h >= 0.0
    ensures (|eye| <= 5 || eye[1].None? || eye[5].None?) ==> h == 0.0
    ensures |eye| > 5 && eye[1].Some? && eye[5].Some? ==> h == Abs(eye[1].value.y - eye[5].value.y)
  {
    if |eye| <= 5 || eye[1].None? || eye[5].None? then 0.0
    else Abs(eye[1].value.y - eye[5].value.y)
  }

  /** `checkEyesVisible`. Both selections always have eight entries, so the
      source's emptiness test never fires. */
  function CheckEyesVisible(lm: Landmarks): (r: bool)
    ensures var left := VerticalEyeDistance(SelectLandmarks(lm, LeftEyeIndices));
            var right := VerticalEyeDistance(SelectLandmarks(lm, RightEyeIndices));
            r <==> Abs(left - right) < EyeVisibilityThreshold && left > MinEyeHeight && right > MinEyeHeight
  {
    var leftEye := SelectLandmarks(lm, LeftEyeIndices);
    var rightEye := SelectLandmarks(lm, RightEyeIndices);
    var leftHeight := VerticalEyeDistance(leftEye);
    var rightHeight := VerticalEyeDistance(rightEye);
    Abs(leftHeight - rightHeight) < EyeVisibilityThreshold && leftHeight > MinEyeHeight && rightHeight > MinEyeHeight
  }

  /** The left eye's height is measured between landmarks 7 and 153, the
      right eye's between 249 and 380; an eye missing either reads as
      closed, so the eyes do not count as visible. */
  lemma EyeHeightLandmarks(lm: Landmarks)
    ensures VerticalEyeDistance(SelectLandmarks(lm, LeftEyeIndices))
            == if At(lm, 7).Some? && At(lm, 153).Some? then Abs(At(lm, 7).value.y - At(lm, 153).value.y) else 0.0
    ensures VerticalEyeDistance(SelectLandmarks(lm, RightEyeIndices))
            == if At(lm, 249).Some? && At(lm, 380).Some? then Abs(At(lm, 249).value.y - At(lm, 380).value.y) else 0.0
    ensures At(lm, 7).None? || At(lm, 153).None? || At(lm, 249).None? || At(lm, 380).None? ==> !CheckEyesVisible(lm)
  {
    var l := SelectLandmarks(lm, LeftEyeIndices);
    var r := SelectLandmarks(lm, RightEyeIndices);
    assert l[1] == At(lm, 7) && l[5] == At(lm, 153);
    assert r[1] == At(lm, 249) && r[5] == At(lm, 380);
  }

  // ---------------------------------------------------------------------
  // lighting

  datatype Lighting = Checking | Dim | Good | Bright

  /** The label for an average brightness. */
  function LightingOfAverage(avg: real): (l: Lighting)
    ensures l == Dim <==> avg < 60.0
    ensures l == Bright <==> avg > 200.0
    ensures l == Good <==> 60.0 <= avg <= 200.0
  {
    if avg < 60.0 then Dim else if avg > 200.0 then Bright else Good
  }

  /** The pixel rows (or columns) `assessLighting` samples: `step/2`,
      `step/2 + step`, ... while below `limit`, each truncated to a pixel
      index as `getImageData` does. `twice` is twice the current position,
      which keeps the half-pixel start exact in integers. */
  function SamplePositions(twice: int, step: int, limit: int): (r: seq<int>)
    requires 0 <= twice && step >= 1
    ensures forall k :: 0 <= k < |r| ==> 0 <= r[k] < limit
    ensures twice < 2 * limit ==> |r| > 0
    decreases 2 * limit - twice
  {
    if twice >= 2 * limit then [] else [twice / 2] + SamplePositions(twice + 2 * step, step, limit)
  }

  /** The brightness at a pixel; every sampled position lies inside the
      canvas, so the 0 outside is never read. */
  function Pixel(pixels: array2<real>, row: int, col: int): real
    reads pixels
  {
    if 0 <= row < pixels.Length0 && 0 <= col < pixels.Length1 then pixels[row, col] else 0.0
  }

  /** The brightness of one sampled row, over the sampled columns, from the left. */
  function RowSum(pixels: array2<real>, row: int, cols: seq<int>): real
    reads pixels
  {
    if |cols| == 0 then 0.0 else RowSum(pixels, row, cols[..|cols| - 1]) + Pixel(pixels, row, cols[|cols| - 1])
  }

  /** The brightness summed over the sampled grid, row by row from the top. */
  function GridSum(pixels: array2<real>, rows: seq<int>, cols: seq<int>): real
    reads pixels
  {
    if |rows| == 0 then 0.0 else GridSum(pixels, rows[..|rows| - 1], cols) + RowSum(pixels, rows[|rows| - 1], cols)
  }

  /** The number of sampled pixels, row by row. */
  function GridCount(rows: seq<int>, cols: seq<int>): (n: nat)
    ensures |rows| > 0 && |cols| > 0 ==> n > 0
  {
    if |rows| == 0 then 0 else GridCount(rows[..|rows| - 1], cols) + |cols|
  }

  /** Dimensions the lighting check answers for: an empty side, which it
      answers "checking" before sampling, or two sides of at least 10
      pixels, since the step `floor(side / 10)` is 0 below 10 and the
      sampling loops would not advance. */
  predicate Samplable(pixels: array2<real>) {
    pixels.Length0 == 0 || pixels.Length1 == 0 || (pixels.Length0 >= 10 && pixels.Length1 >= 10)
  }

  /** `Math.floor(side / sampleSize)` with a sample size of 10. */
  function Step(side: int): (step: int)
    requires side >= 10
    ensures 1 <= step && 2 * step <= side
  {
    side / 10
  }

  /** The sampled rows of a frame with pixels. */
  function Rows(pixels: array2<real>): (rows: seq<int>)
    requires pixels.Length0 >= 10
    ensures |rows| > 0 && forall k :: 0 <= k < |rows| ==> 0 <= rows[k] < pixels.Length0
  {
    SamplePositions(Step(pixels.Length0), Step(pixels.Length0), pixels.Length0)
  }

  /** The sampled columns of a frame with pixels. */
  function Cols(pixels: array2<real>): (cols: seq<int>)
    requires pixels.Length1 >= 10
    ensures |cols| > 0 && forall k :: 0 <= k < |cols| ==> 0 <= cols[k] < pixels.Length1
  {
    SamplePositions(Step(pixels.Length1), Step(pixels.Length1), pixels.Length1)
  }

  /** The mean brightness of the sampled pixels. */
  function SampledAverage(pixels: array2<real>): real
    reads pixels
    requires pixels.Length0 >= 10 && pixels.Length1 >= 10
  {
    var rows := Rows(pixels);
    var cols := Cols(pixels);
    GridSum(pixels, rows, cols) / GridCount(rows, cols) as real
  }

  /** What `assessLighting` reports for a canvas of `pixels.Length1` by
      `pixels.Length0` brightness values (the mean of red, green and blue). */
  function LightingOf(pixels: array2<real>): (l: Lighting)
    reads pixels
    requires Samplable(pixels)
    ensures l == Checking <==> pixels.Length0 == 0 || pixels.Length1 == 0
  {
    if pixels.Length1 == 0 || pixels.Length0 == 0 then Checking
    else LightingOfAverage(SampledAverage(pixels))
  }

  /** `assessLighting(canvas)`: `None` for a missing canvas, `hasContext`
      for whether a 2D context could be obtained. The source's check of a
      zero sample count cannot fire: both steps put a first sample inside. */
  method AssessLighting(canvas: Option<array2<real>>, hasContext: bool) returns (l: Lighting)
    requires canvas.Some? ==> Samplable(canvas.value)
    ensures canvas.None? || !hasContext ==> l == Checking
    ensures canvas.Some? && hasContext ==> l == LightingOf(canvas.value)
  {
    if canvas.None? || !hasContext {
      return Checking;
    }
    var pixels := canvas.value;
    var width := pixels.Length1;
    var height := pixels.Length0;
    if width == 0 || height == 0 {
      return Checking;
    }
    var total, count := SampleGrid(pixels);
    var avg := total / count as real;
    l := LightingOfAverage(avg);
  }

  /** The outer loop of `assessLighting`: the sampled rows from the top,
      adding up brightness and counting samples. */
  method SampleGrid(pixels: array2<real>) returns (total: real, count: int)
    requires pixels.Length0 >= 10 && pixels.Length1 >= 10
    ensures total == GridSum(pixels, Rows(pixels), Cols(pixels))
    ensures count == GridCount(Rows(pixels), Cols(pixels)) && count > 0
  {
    var height := pixels.Length0;
    var stepY := height / 10;
    ghost var rows := Rows(pixels);
    ghost var cols := Cols(pixels);
    total := 0.0;
    count := 0;
    ghost var doneRows: seq<int> := [];
    var y2 := stepY;
    while y2 < 2 * height
      invariant y2 >= 0
      invariant doneRows + SamplePositions(y2, stepY, height) == rows
      invariant total == GridSum(pixels, doneRows, cols)
      invariant count == GridCount(doneRows, cols)
      decreases 2 * height - y2
    {
      var y := y2 / 2;
      ghost var rest := SamplePositions(y2 + 2 * stepY, stepY, height);
      assert doneRows + [y] + rest == rows by {
        assert SamplePositions(y2, stepY, height) == [y] + rest;
      }
      var rowTotal, rowCount := SampleRow(pixels, y);
      total := total + rowTotal;
      count := count + rowCount;
      GridAppend(pixels, doneRows, y, cols);
      doneRows := doneRows + [y];
      y2 := y2 + 2 * stepY;
      assert doneRows + SamplePositions(y2, stepY, height) == rows;
    }
    assert doneRows == rows by {
      assert SamplePositions(y2, stepY, height) == [];
    }
  }

  /** One more sampled row adds its sum and its samples. */
  lemma GridAppend(pixels: array2<real>, rows: seq<int>, y: int, cols: seq<int>)
    ensures GridSum(pixels, rows + [y], cols) == GridSum(pixels, rows, cols) + RowSum(pixels, y, cols)
    ensures GridCount(rows + [y], cols) == GridCount(rows, cols) + |cols|
  {
    assert (rows + [y])[..|rows|] == rows;
  }

  /** The inner loop of `assessLighting`: the sampled pixels of row `y`,
      from the left. */
  method SampleRow(pixels: array2<real>, y: int) returns (rowTotal: real, rowCount: int)
    requires pixels.Length1 >= 10 && 0 <= y < pixels.Length0
    ensures rowTotal == RowSum(pixels, y, Cols(pixels)) && rowCount == |Cols(pixels)|
  {
    var width := pixels.Length1;
    var stepX := width / 10;
    ghost var cols := Cols(pixels);
    ghost var doneCols: seq<int> := [];
    rowTotal := 0.0;
    rowCount := 0;
    var x2 := stepX;
    while x2 < 2 * width
      invariant x2 >= 0
      invariant doneCols + SamplePositions(x2, stepX, width) == cols
      invariant rowTotal == RowSum(pixels, y, doneCols)
      invariant rowCount == |doneCols|
      decreases 2 * width - x2
    {
      var x := x2 / 2;
      ghost var rest := SamplePositions(x2 + 2 * stepX, stepX, width);
      assert doneCols + [x] + rest == cols by {
        assert SamplePositions(x2, stepX, width) == [x] + rest;
      }
      rowTotal := rowTotal + pixels[y, x];
      rowCount := rowCount + 1;
      RowAppend(pixels, y, doneCols, x);
      doneCols := doneCols + [x];
      x2 := x2 + 2 * stepX;
      assert doneCols + SamplePositions(x2, stepX, width) == cols;
    }
    assert doneCols == cols by {
      assert SamplePositions(x2, stepX, width) == [];
    }
  }

  /** One more sampled column adds its pixel. */
  lemma RowAppend(pixels: array2<real>, y: int, cols: seq<int>, x: int)
    requires 0 <= y < pixels.Length0 && 0 <= x < pixels.Length1
    ensures RowSum(pixels, y, cols + [x]) == RowSum(pixels, y, cols) + pixels[y, x]
  {
    assert (cols + [x])[..|cols|] == cols;
  }

  /** A frame of uniform brightness `b` is labelled by `b` itself. */
  lemma UniformLighting(pixels: array2<real>, b: real)
    requires Samplable(pixels) && pixels.Length0 > 0 && pixels.Length1 > 0
    requires forall i, j :: 0 <= i < pixels.Length0 && 0 <= j < pixels.Length1 ==> pixels[i, j] == b
    ensures LightingOf(pixels) == LightingOfAverage(b)
  {
    UniformMean(pixels, b);
  }

  lemma UniformMean(pixels: array2<real>, b: real)
    requires pixels.Length0 >= 10 && pixels.Length1 >= 10
    requires forall i, j :: 0 <= i < pixels.Length0 && 0 <= j < pixels.Length1 ==> pixels[i, j] == b
    ensures SampledAverage(pixels) == b
  {
    UniformGridMean(pixels, b, Rows(pixels), Cols(pixels));
  }

  lemma UniformGridMean(pixels: array2<real>, b: real, rows: seq<int>, cols: seq<int>)
    requires |rows| > 0 && forall k :: 0 <= k < |rows| ==> 0 <= rows[k] < pixels.Length0
    requires |cols| > 0 && forall k :: 0 <= k < |cols| ==> 0 <= cols[k] < pixels.Length1
    requires forall i, j :: 0 <= i < pixels.Length0 && 0 <= j < pixels.Length1 ==> pixels[i, j] == b
    ensures GridSum(pixels, rows, cols) / GridCount(rows, cols) as real == b
  {
    UniformGrid(pixels, b, rows, cols);
    GridMean(pixels, b, rows, cols);
  }

  lemma GridMean(pixels: array2<real>, b: real, rows: seq<int>, cols: seq<int>)
    requires |rows| > 0 && |cols| > 0
    requires GridSum(pixels, rows, cols) == GridCount(rows, cols) as real * b
    ensures GridSum(pixels, rows, cols) / GridCount(rows, cols) as real == b
  {
    MeanOfUniform(GridSum(pixels, rows, cols), GridCount(rows, cols), b);
  }

  lemma MeanOfUniform(sum: real, n: nat, b: real)
    ensures n > 0 && sum == n as real * b ==> sum / n as real == b
  {
  }

  lemma {:induction false} UniformRow(pixels: array2<real>, b: real, row: int, cols: seq<int>)
    requires 0 <= row < pixels.Length0 && forall k :: 0 <= k < |cols| ==> 0 <= cols[k] < pixels.Length1
    requires forall i, j :: 0 <= i < pixels.Length0 && 0 <= j < pixels.Length1 ==> pixels[i, j] == b
    ensures RowSum(pixels, row, cols) == |cols| as real * b
  {
    if |cols| > 0 {
      UniformRow(pixels, b, row, cols[..|cols| - 1]);
    }
  }

  lemma {:induction false} UniformGrid(pixels: array2<real>, b: real, rows: seq<int>, cols: seq<int>)
    requires forall k :: 0 <= k < |rows| ==> 0 <= rows[k] < pixels.Length0
    requires forall k :: 0 <= k < |cols| ==> 0 <= cols[k] < pixels.Length1
    requires forall i, j :: 0 <= i < pixels.Length0 && 0 <= j < pixels.Length1 ==> pixels[i, j] == b
    ensures GridSum(pixels, rows, cols) == GridCount(rows, cols) as real * b
  {
    if |rows| > 0 {
      UniformGrid(pixels, b, rows[..|rows| - 1], cols);
      UniformRow(pixels, b, rows[|rows| - 1], cols);
    }
  }

  // ---------------------------------------------------------------------
  // readiness

  datatype Status = Status(faceCentered: bool, eyesVisible: bool, lighting: Lighting)

  /** Ready: centred, eyes visible, and lighting good or bright. */
  predicate Ready(s: Status) {
    s.faceCentered && s.eyesVisible && (s.lighting == Good || s.lighting == Bright)
  }

  class WebcamCheck {
    var status: Status
    var isReady: bool

    constructor ()
      ensures status == Status(false, false, Checking) && !isReady
    {
      status := Status(false, false, Checking);
      isReady := false;
    }

    /** `evaluateResults` for one face-mesh result: no face resets every
        check; otherwise the checks are recomputed and readiness follows. */
    method EvaluateResults(face: Option<Landmarks>, canvas: Option<array2<real>>, hasContext: bool)
      requires face.Some? ==> At(face.value, Nose).Some?
      requires canvas.Some? ==> Samplable(canvas.value)
      modifies this
      ensures face.None? ==> status == Status(false, false, Checking) && !isReady
      ensures face.Some? ==> status.faceCentered == CheckFaceCentered(face.value)
                             && status.eyesVisible == CheckEyesVisible(face.value)
                             && status.lighting == (if canvas.Some? && hasContext then LightingOf(canvas.value) else Checking)
      ensures isReady <==> Ready(status)
    {
      if face.None? {
        status := status.(faceCentered := false, eyesVisible := false, lighting := Checking);
        isReady := false;
        return;
      }
      var landmarks := face.value;
      var isFaceCentered := CheckFaceCentered(landmarks);
      var areEyesVisible := CheckEyesVisible(landmarks);
      var lightingLabel := AssessLighting(canvas, hasContext);
      var allGood := isFaceCentered && areEyesVisible && (lightingLabel == Good || lightingLabel == Bright);
      status := Status(isFaceCentered, areEyesVisible, lightingLabel);
      isReady := allGood;
    }
  }
}
