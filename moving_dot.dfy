/** The moving dot therapy game: for twenty seconds a dot glides along a
    fixed path of five points, the child taps it, and at the end the number
    of taps is kept as the high score (if higher) and one more session is
    counted in the therapy progress. */
module MovingDot {
  import opened Base
  import opened Js
  import opened TherapyProgress

  /** `SESSION_DURATION_MS` */
  const SessionDurationMs: real := 20000.0

  /** A position in percent of the play area. */
  datatype Point = Point(x: real, y: real)

  /** `PATH_POINTS` */
  const PathPoints: seq<Point> := [Point(10.0, 20.0), Point(80.0, 25.0), Point(60.0, 60.0), Point(30.0, 75.0), Point(50.0, 40.0)]

  /** `v` lies between `a` and `b`, in either order. */
  predicate Between(a: real, b: real, v: real) {
    Min(a, b) <= v <= Max(a, b)
  }

  // ---------------------------------------------------------------------
  // one animation frame

  /** `Math.floor(progressRatio * (PATH_POINTS.length - 1))` */
  function PointIndex(ratio: real): (k: int)
    ensures 0.0 <= ratio < 1.0 ==> 0 <= k < |PathPoints| - 1
  {
    (ratio * 4.0).Floor
  }

  /** `(progressRatio * (PATH_POINTS.length - 1)) % 1` for a ratio that is
      not negative: the fraction of the way from the current point to the
      next. */
  function Intra(ratio: real): (t: real)
    requires ratio >= 0.0
    ensures 0.0 <= t < 1.0
  {
    ratio * 4.0 - (ratio * 4.0).Floor as real
  }

  /** The dot's position at a ratio of the session in [0, 1). */
  function Position(ratio: real): Point
    requires 0.0 <= ratio < 1.0
  {
    var k := PointIndex(ratio);
    var current := PathPoints[k];
    var target := PathPoints[MinInt(k + 1, |PathPoints| - 1)];
    var t := Intra(ratio);
    Point(current.x + (target.x - current.x) * t, current.y + (target.y - current.y) * t)
  }

  /** The dot stays on the segment from its current path point to the next
      one, and so inside the box the path spans. */
  lemma PositionOnSegment(ratio: real)
    requires 0.0 <= ratio < 1.0
    ensures var k := PointIndex(ratio);
            var p := Position(ratio);
            Between(PathPoints[k].x, PathPoints[k + 1].x, p.x) && Between(PathPoints[k].y, PathPoints[k + 1].y, p.y)
            && 10.0 <= p.x <= 80.0 && 20.0 <= p.y <= 75.0
  {
    var k := PointIndex(ratio);
    var t := Intra(ratio);
    if k == 0 {
      assert Position(ratio) == Point(10.0 + 70.0 * t, 20.0 + 5.0 * t);
    } else if k == 1 {
      assert Position(ratio) == Point(80.0 - 20.0 * t, 25.0 + 35.0 * t);
    } else if k == 2 {
      assert Position(ratio) == Point(60.0 - 30.0 * t, 60.0 + 15.0 * t);
    } else {
      assert Position(ratio) == Point(30.0 + 20.0 * t, 75.0 - 35.0 * t);
    }
  }

  /** At each quarter of the session the dot is exactly on a path point. */
  lemma PositionAtPathPoints(k: nat)
    requires k < |PathPoints| - 1
    ensures Position(k as real / 4.0) == PathPoints[k]
  {
    var ratio := k as real / 4.0;
    assert ratio * 4.0 == k as real;
    assert PointIndex(ratio) == k;
    assert Intra(ratio) == 0.0;
  }

  /** `Math.max(0, Math.ceil((SESSION_DURATION_MS - elapsed) / 1000))` */
  function TimeLeft(elapsed: real): (s: int)
    ensures s >= 0
  {
    MaxInt(0, Ceil((SessionDurationMs - elapsed) / 1000.0))
  }

  /** During the session the seconds left run from 20 down to 1, and they
      never go up as time passes. */
  lemma TimeLeftCountsDown(a: real, b: real)
    ensures 0.0 <= a < SessionDurationMs ==> 1 <= TimeLeft(a) <= 20
    ensures a <= b ==> TimeLeft(b) <= TimeLeft(a)
  {
    if a <= b {
      var ca := Ceil((SessionDurationMs - a) / 1000.0);
      var cb := Ceil((SessionDurationMs - b) / 1000.0);
      assert (SessionDurationMs - b) / 1000.0 <= (SessionDurationMs - a) / 1000.0;
      assert cb <= ca;
    }
  }

  /** What a frame does: finish the session, move the dot and show the
      seconds left, or throw (a negative elapsed time reads the point before
      the first, which is undefined). */
  datatype Frame = Finished | Moved(at: Point, timeLeft: int) | Throws

  /** `animate(timestamp)`, `elapsed` milliseconds after the start. */
  function FrameAt(elapsed: real): (f: Frame)
    ensures f.Finished? <==> elapsed >= SessionDurationMs
    ensures f.Throws? <==> elapsed < 0.0
    ensures f.Moved? ==> 1 <= f.timeLeft <= 20
  {
    var ratio := elapsed / SessionDurationMs;
    if ratio >= 1.0 then Finished
    else if PointIndex(ratio) < 0 then Throws
    else
      TimeLeftCountsDown(elapsed, elapsed);
      Moved(Position(ratio), TimeLeft(elapsed))
  }

  /** A frame in the session moves the dot along the segment of the
      current quarter; the seconds left follow the elapsed time. */
  lemma FrameMoves(elapsed: real)
    requires 0.0 <= elapsed < SessionDurationMs
    ensures var f := FrameAt(elapsed);
            var k := PointIndex(elapsed / SessionDurationMs);
            f.Moved? && f.timeLeft == TimeLeft(elapsed)
            && Between(PathPoints[k].x, PathPoints[k + 1].x, f.at.x)
            && Between(PathPoints[k].y, PathPoints[k + 1].y, f.at.y)
  {
    PositionOnSegment(elapsed / SessionDurationMs);
  }

  // ---------------------------------------------------------------------
  // the session record

  /** The score as written: `finishSession` runs from the animation loop,
      whose closure was made when the session started, so it sees the hits
      shown then rather than the taps of the session. */
  function ScoreAsWritten(hitsAtStart: nat, hits: nat): nat {
    hitsAtStart
  }

  /** As written the session's taps do not reach the record: a first
      session with five taps records a high score of zero. */
  lemma AsWrittenIgnoresTaps(previous: Value, hitsAtStart: nat, hits: nat)
    ensures BestRecord("highScore", previous, ScoreAsWritten(hitsAtStart, hits)) == BestRecord("highScore", previous, ScoreAsWritten(hitsAtStart, 0))
    ensures Get(Fields(BestRecord("highScore", MovingDotDefault(), ScoreAsWritten(0, 5))), "highScore") == Num(0.0)
  {
    GameRecordMembers("highScore", KeptMax(Num(0.0), 0.0), MovingDotDefault());
  }

  /** The intended score: the taps of the session. */
  function SessionScore(hitsAtStart: nat, hits: nat): nat {
    hits
  }

  /** With the session's taps as score, the stored high score is at least
      that score, and at least the previous numeric high score. */
  lemma SessionScoreRecorded(previous: Value, hitsAtStart: nat, hits: nat)
    ensures var before := Get(Fields(previous), "highScore");
            var after := Get(Fields(BestRecord("highScore", previous, SessionScore(hitsAtStart, hits))), "highScore");
            (before.Num? ==> after.Num? && after.n >= hits as real && after.n >= before.n)
            && (Nullish(before) ==> after == Num(hits as real))
  {
    var before := Get(Fields(previous), "highScore");
    GameRecordMembers("highScore", KeptMax(before, hits as real), previous);
    if before.Num? {
      KeptMaxBounds(before.n, hits as real);
    }
  }

  class MovingDotGame {
    const store: ProgressStore
    var isRunning: bool
    var hits: nat
    var timeLeft: int
    /** The moving-dot record of the therapy progress. */
    var progress: Value
    /** `startTimestampRef.current`, `None` for null. */
    var startTimestamp: Option<real>
    /** The hits the running animation loop's closure sees. */
    var hitsAtStart: nat

    constructor (store: ProgressStore)
      ensures this.store == store && !isRunning && hits == 0 && timeLeft == 20
      ensures progress == Get(store.Load(), "movingDot") && startTimestamp.None? && hitsAtStart == 0
    {
      this.store := store;
      isRunning := false;
      hits := 0;
      timeLeft := 20;
      progress := Get(store.Load(), "movingDot");
      startTimestamp := None;
      hitsAtStart := 0;
    }

    /** The start button (disabled while running) and the effect it sets
        off at time `now`: the hits and the clock are reset. */
    method Start(now: real)
      requires !isRunning
      modifies this
      ensures isRunning && hits == 0 && timeLeft == 20 && startTimestamp == Some(now)
      ensures hitsAtStart == old(hits) && progress == old(progress)
    {
      hitsAtStart := hits;
      isRunning := true;
      hits := 0;
      timeLeft := 20;
      startTimestamp := Some(now);
    }

    /** `handleHit`: a tap counts only while the session runs. */
    method Hit()
      modifies this
      ensures hits == if old(isRunning) then old(hits) + 1 else old(hits)
      ensures isRunning == old(isRunning) && timeLeft == old(timeLeft) && progress == old(progress)
      ensures startTimestamp == old(startTimestamp) && hitsAtStart == old(hitsAtStart)
    {
      if isRunning {
        hits := hits + 1;
      }
    }

    /** The reset button, offered only while no session runs. */
    method ResetHits()
      requires !isRunning
      modifies this
      ensures hits == 0 && !isRunning && timeLeft == old(timeLeft) && progress == old(progress)
      ensures startTimestamp == old(startTimestamp) && hitsAtStart == old(hitsAtStart)
    {
      hits := 0;
    }

    /** One animation frame at `timestamp`. A finished session stores its
        record (the update's result is dereferenced, so that needs a
        window), with the session's taps as score. */
    method Animate(timestamp: real, nowText: string) returns (f: Frame)
      requires isRunning && startTimestamp.Some? && store.Valid()
      requires timestamp - startTimestamp.value >= SessionDurationMs ==> store.hasWindow
      modifies this, store
      ensures store.Valid()
      ensures f == FrameAt(timestamp - old(startTimestamp).value)
      ensures hits == old(hits) && startTimestamp == old(startTimestamp) && hitsAtStart == old(hitsAtStart)
      ensures f.Moved? ==> timeLeft == f.timeLeft && isRunning && progress == old(progress)
                           && store.entry == old(store.entry)
      ensures f.Throws? ==> timeLeft == old(timeLeft) && isRunning && progress == old(progress)
                            && store.entry == old(store.entry)
      ensures f.Finished? ==>
                !isRunning && timeLeft == old(timeLeft)
                && progress == BestRecord("highScore", Get(old(store.Load()), "movingDot"), SessionScore(hitsAtStart, hits))
                && store.Load() == Updated(old(store.Load()), map["movingDot" := progress], nowText)
    {
      var elapsed := timestamp - startTimestamp.value;
      f := FrameAt(elapsed);
      if f.Finished? {
        isRunning := false;
        var previous := Get(store.Load(), "movingDot");
        var record := BestRecord("highScore", previous, SessionScore(hitsAtStart, hits));
        store.UpdateGame("movingDot", record, nowText);
        progress := record;
      } else if f.Moved? {
        timeLeft := f.timeLeft;
      }
    }
  }
}
