/** The contrast-sensitivity step of a screening: six shapes of falling
    contrast, shown to the left and right eye in turn. Each answer is
    recorded with whether it was right and how long the countdown had run;
    after the sixth the answers are scored per eye and the blend is stored
    as `contrastSensitivityScore`. */
module Contrast {
  import opened Base
  import opened Js
  import Stats
  import opened ScreeningSession

  datatype Eye = Left | Right
  datatype Shape = Circle | Triangle | Square

  datatype Trial = Trial(eye: Eye, contrast: real, shape: Shape)

  const TestSequence: seq<Trial> := [
    Trial(Left, 0.3, Circle),
    Trial(Right, 0.25, Triangle),
    Trial(Left, 0.2, Square),
    Trial(Right, 0.18, Circle),
    Trial(Left, 0.15, Triangle),
    Trial(Right, 0.12, Square)
  ]

  /** The sequence alternates eyes, left first, and every shape is fainter
      than the one before. */
  lemma TestSequenceShape()
    ensures |TestSequence| == 6
    ensures forall j :: 0 <= j < |TestSequence| ==> TestSequence[j].eye == if j % 2 == 0 then Left else Right
    ensures forall i, j :: 0 <= i < j < |TestSequence| ==> TestSequence[i].contrast > TestSequence[j].contrast
    ensures TestSequence[0].contrast == 0.3 && TestSequence[5].contrast == 0.12
  {
  }

  /** One recorded answer: the trial, whether it was right, and the reaction
      time; `None` is a record without a `reactionTime` member. */
  datatype ContrastResponse = ContrastResponse(trial: Trial, correct: bool, reactionTime: Option<real>)

  /** `2000 - countdown * 1000` */
  function ReactionTime(countdown: int): (r: real)
    ensures 0 <= countdown <= 3 ==> -1000.0 <= r <= 2000.0
    ensures r + countdown as real * 1000.0 == 2000.0
  {
    2000.0 - countdown as real * 1000.0
  }

  // ---------------------------------------------------------------------
  // scoring

  /** `allResponses.filter((r) => r.eye === eye)` */
  function OfEye(rs: seq<ContrastResponse>, eye: Eye): (r: seq<ContrastResponse>)
    ensures |r| <= |rs|
    ensures forall j :: 0 <= j < |r| ==> r[j].trial.eye == eye && r[j] in rs
  {
    if |rs| == 0 then []
    else (if rs[0].trial.eye == eye then [rs[0]] else []) + OfEye(rs[1..], eye)
  }

  /** The number of right answers. */
  function CorrectCount(rs: seq<ContrastResponse>): (n: nat)
    ensures n <= |rs|
  {
    if |rs| == 0 then 0 else (if rs[0].correct then 1 else 0) + CorrectCount(rs[1..])
  }

  /** Right answers over answers; the source divides without checking that
      the eye had any trial, so this asks for one. */
  function Accuracy(rs: seq<ContrastResponse>): (r: real)
    requires |rs| > 0
    ensures 0.0 <= r <= 1.0
    ensures r == 1.0 <==> CorrectCount(rs) == |rs|
    ensures r == 0.0 <==> CorrectCount(rs) == 0
  {
    CorrectCount(rs) as real / |rs| as real
  }

  function Contrasts(rs: seq<ContrastResponse>): (cs: seq<real>)
    ensures |cs| == |rs| && forall j :: 0 <= j < |cs| ==> cs[j] == rs[j].trial.contrast
  {
    seq(|rs|, j requires 0 <= j < |rs| => rs[j].trial.contrast)
  }

  /** Every record carries a reaction time. */
  predicate Timed(rs: seq<ContrastResponse>) {
    forall j :: 0 <= j < |rs| ==> rs[j].reactionTime.Some?
  }

  function ReactionTimes(rs: seq<ContrastResponse>): (ts: seq<real>)
    requires Timed(rs)
    ensures |ts| == |rs| && forall j :: 0 <= j < |ts| ==> ts[j] == rs[j].reactionTime.value
  {
    seq(|rs|, j requires 0 <= j < |rs| => rs[j].reactionTime.value)
  }

  lemma TimedOfEye(rs: seq<ContrastResponse>, eye: Eye)
    requires Timed(rs)
    ensures Timed(OfEye(rs, eye))
  {
    var r := OfEye(rs, eye);
    forall j | 0 <= j < |r| ensures r[j].reactionTime.Some? {
      var k :| 0 <= k < |rs| && rs[k] == r[j];
    }
  }

  /** `max(0, 1 - 5·|mean left contrast - mean right contrast|)` */
  function BalanceScore(all: seq<ContrastResponse>): (r: real)
    ensures 0.0 <= r <= 1.0
  {
    var difference := Abs(Stats.Average(Contrasts(OfEye(all, Left))) - Stats.Average(Contrasts(OfEye(all, Right))));
    Max(0.0, 1.0 - difference * 5.0)
  }

  /** `max(0, 1 - |mean left reaction - mean right reaction| / 2000)` */
  function ReactionScore(all: seq<ContrastResponse>): (r: real)
    requires Timed(all)
    ensures 0.0 <= r <= 1.0
    ensures Stats.Average(ReactionTimes(OfEye(all, Left))) == Stats.Average(ReactionTimes(OfEye(all, Right))) ==> r == 1.0
  {
    TimedOfEye(all, Left);
    TimedOfEye(all, Right);
    var left := Stats.Average(ReactionTimes(OfEye(all, Left)));
    var right := Stats.Average(ReactionTimes(OfEye(all, Right)));
    Max(0.0, 1.0 - Abs(left - right) / 2000.0)
  }

  /** `(leftAccuracy + rightAccuracy) / 2` */
  function AccuracyScore(all: seq<ContrastResponse>): (r: real)
    requires |OfEye(all, Left)| > 0 && |OfEye(all, Right)| > 0
    ensures 0.0 <= r <= 1.0
  {
    (Accuracy(OfEye(all, Left)) + Accuracy(OfEye(all, Right))) / 2.0
  }

  /** Whether `computeScore` can produce a number for `all`: each eye had a
      trial and every record carries a reaction time. */
  predicate Scorable(all: seq<ContrastResponse>) {
    |OfEye(all, Left)| > 0 && |OfEye(all, Right)| > 0 && Timed(all)
  }

  /** `contrastSensitivityScore`: `round2(0.6·accuracy + 0.25·balance + 0.15·reaction)`. */
  function ContrastScore(all: seq<ContrastResponse>): (r: real)
    requires Scorable(all)
    ensures 0.0 <= r <= 1.0
    ensures Abs(r - (AccuracyScore(all) * 0.6 + BalanceScore(all) * 0.25 + ReactionScore(all) * 0.15)) <= 0.005
  {
    var raw := AccuracyScore(all) * 0.6 + BalanceScore(all) * 0.25 + ReactionScore(all) * 0.15;
    Round2UnitInterval(raw);
    Round2Near(raw);
    Round2(raw)
  }

  // ---------------------------------------------------------------------
  // the fixed sequence

  /** Records that answer the whole test sequence, one per trial, in order. */
  predicate AnswersSequence(all: seq<ContrastResponse>) {
    |all| == |TestSequence| && forall j :: 0 <= j < |all| ==> all[j].trial == TestSequence[j]
  }

  lemma OfEyeStep(rs: seq<ContrastResponse>, eye: Eye, k: int)
    requires 0 <= k < |rs|
    ensures OfEye(rs[k..], eye) == (if rs[k].trial.eye == eye then [rs[k]] else []) + OfEye(rs[k + 1..], eye)
  {
    assert rs[k..][1..] == rs[k + 1..];
  }

  /** Over the test sequence the left eye sees the trials 0, 2 and 4 and
      the right eye the trials 1, 3 and 5, whatever the answers. */
  lemma OfEyeOverSequence(all: seq<ContrastResponse>)
    requires AnswersSequence(all)
    ensures OfEye(all, Left) == [all[0], all[2], all[4]]
    ensures OfEye(all, Right) == [all[1], all[3], all[5]]
  {
    OfEyeOverSequenceFor(all, Left);
    OfEyeOverSequenceFor(all, Right);
  }

  lemma OfEyeOverSequenceFor(all: seq<ContrastResponse>, eye: Eye)
    requires AnswersSequence(all)
    ensures OfEye(all, eye) == if eye == Left then [all[0], all[2], all[4]] else [all[1], all[3], all[5]]
  {
    assert all[0..] == all && all[6..] == [];
    OfEyeStep(all, eye, 0); OfEyeStep(all, eye, 1); OfEyeStep(all, eye, 2);
    OfEyeStep(all, eye, 3); OfEyeStep(all, eye, 4); OfEyeStep(all, eye, 5);
  }

  /** The contrast balance does not depend on the answers at all: the mean
      contrasts differ by 1/30, so the balance score is always 5/6. */
  lemma BalanceOverSequence(all: seq<ContrastResponse>)
    requires AnswersSequence(all)
    ensures BalanceScore(all) == 5.0 / 6.0
  {
    OfEyeOverSequence(all);
    var left := Contrasts(OfEye(all, Left));
    var right := Contrasts(OfEye(all, Right));
    assert left == [0.3, 0.2, 0.15];
    assert right == [0.25, 0.18, 0.12];
    assert left[..2][..1] == [0.3] && left[..2] == [0.3, 0.2];
    assert right[..2][..1] == [0.25] && right[..2] == [0.25, 0.18];
    assert Stats.Sum(left) == 0.65 by {
      assert Stats.Sum([0.3]) == 0.3 by { assert [0.3][..0] == []; }
    }
    assert Stats.Sum(right) == 0.55 by {
      assert Stats.Sum([0.25]) == 0.25 by { assert [0.25][..0] == []; }
    }
  }

  /** A run through the whole sequence can always be scored once every
      record carries a reaction time: both eyes had three trials. */
  lemma SequenceScorable(all: seq<ContrastResponse>)
    requires AnswersSequence(all) && Timed(all)
    ensures Scorable(all)
  {
    OfEyeOverSequence(all);
  }

  // ---------------------------------------------------------------------
  // the last answer

  /** The record `handleResponse` appends for an answer given with
      `countdown` seconds showing. */
  function Answered(trial: Trial, correct: bool, countdown: int): (r: ContrastResponse)
    ensures r.trial == trial && r.correct == correct
    ensures r.reactionTime.Some? && r.reactionTime.value == ReactionTime(countdown)
  {
    ContrastResponse(trial, correct, Some(ReactionTime(countdown)))
  }

  /** What the last answer hands to `computeScore` as written: the earlier
      records plus `{ ...item, correct }`, which has no reaction time. */
  function FinalRecordsAsWritten(responses: seq<ContrastResponse>, trial: Trial, correct: bool): (r: seq<ContrastResponse>)
    ensures |r| == |responses| + 1 && r[..|responses|] == responses
    ensures r[|responses|].reactionTime.None?
  {
    responses + [ContrastResponse(trial, correct, None)]
  }

  /** As written, the scored records never all carry a reaction time, so the
      right eye's mean reaction time is not a number for every run. */
  lemma AsWrittenNeverScorable(responses: seq<ContrastResponse>, trial: Trial, correct: bool)
    ensures !Scorable(FinalRecordsAsWritten(responses, trial, correct))
  {
    var r := FinalRecordsAsWritten(responses, trial, correct);
    assert r[|responses|].reactionTime.None?;
  }

  /** The records as intended: the earlier records plus the very record the
      answer appended. */
  function FinalRecords(responses: seq<ContrastResponse>, trial: Trial, correct: bool, countdown: int): (r: seq<ContrastResponse>)
    ensures |r| == |responses| + 1 && r[..|responses|] == responses && r[|responses|] == Answered(trial, correct, countdown)
  {
    responses + [Answered(trial, correct, countdown)]
  }

  /** With the intended records, a run through the sequence is always scored. */
  lemma FinalRecordsScorable(responses: seq<ContrastResponse>, correct: bool, countdown: int)
    requires |responses| == |TestSequence| - 1 && Timed(responses)
    requires forall j :: 0 <= j < |responses| ==> responses[j].trial == TestSequence[j]
    ensures Scorable(FinalRecords(responses, TestSequence[|TestSequence| - 1], correct, countdown))
  {
    var all := FinalRecords(responses, TestSequence[|TestSequence| - 1], correct, countdown);
    assert all[|responses|] == Answered(TestSequence[5], correct, countdown);
    assert AnswersSequence(all);
    SequenceScorable(all);
  }

  // ---------------------------------------------------------------------
  // the page

  class ContrastTest {
    const store: SessionStore
    var currentIndex: int
    var responses: seq<ContrastResponse>
    var countdown: int
    var isComplete: bool

    /** The answers so far are the first trials of the sequence, in order,
        each with a reaction time; the index points at the next trial, or
        at the last one after the sixth answer. */
    ghost predicate Valid()
      reads this
    {
      0 <= currentIndex < |TestSequence| && 0 <= countdown <= 3
      && |responses| == (if isComplete then |TestSequence| else currentIndex)
      && (isComplete ==> currentIndex == |TestSequence| - 1)
      && Timed(responses)
      && forall j :: 0 <= j < |responses| ==> responses[j].trial == TestSequence[j]
    }

    constructor (store: SessionStore)
      ensures Valid() && this.store == store
      ensures currentIndex == 0 && responses == [] && countdown == 3 && !isComplete
    {
      this.store := store;
      currentIndex := 0;
      responses := [];
      countdown := 3;
      isComplete := false;
    }

    /** One second of the countdown: down by one until it reaches 0. */
    method Tick()
      requires Valid()
      modifies this
      ensures Valid()
      ensures countdown == if old(countdown) > 0 then old(countdown) - 1 else old(countdown)
      ensures currentIndex == old(currentIndex) && responses == old(responses) && isComplete == old(isComplete)
    {
      if countdown <= 0 {
        return;
      }
      countdown := countdown - 1;
    }

    /** `handleResponse(correct)`; the answer buttons are disabled once the
        test is complete. Every answer appends its record; before the last
        trial the index advances and the countdown restarts, and the last
        trial completes the test and stores the score of all six records. */
    method HandleResponse(correct: bool)
      requires Valid() && store.Valid() && !isComplete
      modifies this, store
      ensures Valid() && store.Valid()
      ensures responses == old(responses) + [Answered(TestSequence[old(currentIndex)], correct, old(countdown))]
      ensures old(currentIndex) < |TestSequence| - 1 ==>
                currentIndex == old(currentIndex) + 1 && countdown == 3 && !isComplete && store.entry == old(store.entry)
      ensures old(currentIndex) == |TestSequence| - 1 ==>
                isComplete && currentIndex == old(currentIndex) && countdown == old(countdown)
                && Scorable(responses)
                && (store.hasWindow ==> Get(Fields(store.Read()), "contrastSensitivityScore") == Num(ContrastScore(responses)))
                && (store.hasWindow ==> forall k :: k != "contrastSensitivityScore" ==>
                      Get(Fields(store.Read()), k) == Get(Fields(old(store.Read())), k))
    {
      var item := TestSequence[currentIndex];
      var before := responses;
      responses := responses + [Answered(item, correct, countdown)];
      if currentIndex == |TestSequence| - 1 {
        isComplete := true;
        var all := FinalRecords(before, item, correct, countdown);
        FinalRecordsScorable(before, correct, countdown);
        store.MergeScore("contrastSensitivityScore", ContrastScore(all));
      } else {
        currentIndex := currentIndex + 1;
        countdown := 3;
      }
    }
  }
}
