/** Face landmarks as a face-mesh tracker reports them: normalised image
    coordinates, indexed by landmark number. A landmark the tracker did not
    report is `None`, which is how an index past the end reads too. */
module Face {
  import opened Base

  datatype Point = Point(x: real, y: real)

  type Landmarks = seq<Option<Point>>

  /** `landmarks[i]` */
  function At(lm: Landmarks, i: int): Option<Point> {
    if 0 <= i < |lm| then lm[i] else None
  }
}
