/** The contrast challenge therapy game: eight rounds, each showing one of
    three shapes at a contrast that falls from 0.6 to 0.2 over the first
    four rounds; the caregiver logs the shape the child names, and after
    the eighth answer the number of correct answers is kept as the best
    streak (if higher) and one more session is counted in the therapy
    progress. */
module ContrastChallenge {
  import opened Base
  import opened Js
  import opened TherapyProgress

  datatype Shape = Circle | Triangle | Square

  /** `CONTRAST_LEVELS` */
  const ContrastLevels: seq<real> := [0.6, 0.45, 0.3, 0.2]
  /** `SESSION_ROUNDS` */
  const SessionRounds: nat := 8

  /** A round; its random id is left out. */
  datatype Round = Round(shape: Shape, contrast: real)

  /** One logged answer: the round and whether the named shape was right. */
  datatype Logged = Logged(round: Round, isCorrect: bool)

  /** `Math.min(index, CONTRAST_LEVELS.length - 1)` */
  function LevelOf(index: nat): (level: nat)
    ensures level < |ContrastLevels|
    ensures level <= index && (index < |ContrastLevels| ==> level == index)
  {
    if index < |ContrastLevels| - 1 then index else |ContrastLevels| - 1
  }

  /** The rounds of a started session; `shapes` are the random draws. */
  function SessionRoundsOf(shapes: seq<Shape>): (rounds: seq<Round>)
    requires |shapes| == SessionRounds
    ensures |rounds| == SessionRounds
  {
    seq(SessionRounds, i requires 0 <= i < SessionRounds => Round(shapes[i], ContrastLevels[LevelOf(i)]))
  }

  /** The rounds of the first render, all at the first level. */
  function InitialRounds(shapes: seq<Shape>): (rounds: seq<Round>)
    requires |shapes| == SessionRounds
    ensures |rounds| == SessionRounds
  {
    seq(SessionRounds, i requires 0 <= i < SessionRounds => Round(shapes[i], ContrastLevels[0]))
  }

  /** Round `i` shows the `i`-th drawn shape at level `min(i, 3)`: the
      contrast gets lower round by round from 0.6 and stays at 0.2 from the
      fourth round on. */
  lemma SessionRoundsHarden(shapes: seq<Shape>)
    requires |shapes| == SessionRounds
    ensures var rounds := SessionRoundsOf(shapes);
            (forall i :: 0 <= i < SessionRounds ==> rounds[i].shape == shapes[i])
            && rounds[0].contrast == 0.6 && rounds[1].contrast == 0.45 && rounds[2].contrast == 0.3
            && (forall i :: 3 <= i < SessionRounds ==> rounds[i].contrast == 0.2)
            && (forall i, j :: 0 <= i < j < SessionRounds ==> rounds[j].contrast < rounds[i].contrast || rounds[j].contrast == 0.2)
  {
  }

  /** `answers.filter((answer) => answer.isCorrect).length` */
  function CorrectCount(answers: seq<Logged>): (n: nat)
    ensures n <= |answers|
  {
    if answers == [] then 0
    else (if answers[0].isCorrect then 1 else 0) + CorrectCount(answers[1..])
  }

  /** Logging one more answer adds one exactly when it is correct. */
  lemma {:induction false} CorrectCountAppend(answers: seq<Logged>, a: Logged)
    ensures CorrectCount(answers + [a]) == CorrectCount(answers) + (if a.isCorrect then 1 else 0)
  {
    if answers != [] {
      assert (answers + [a])[1..] == answers[1..] + [a];
      CorrectCountAppend(answers[1..], a);
    }
  }

  /** Every answer correct gives the full count, none correct gives zero. */
  lemma {:induction false} CorrectCountExtremes(answers: seq<Logged>)
    ensures (forall i :: 0 <= i < |answers| ==> answers[i].isCorrect) ==> CorrectCount(answers) == |answers|
    ensures (forall i :: 0 <= i < |answers| ==> !answers[i].isCorrect) ==> CorrectCount(answers) == 0
  {
    if answers != [] {
      CorrectCountExtremes(answers[1..]);
      assert forall i :: 0 <= i < |answers[1..]| ==> answers[1..][i] == answers[i + 1];
    }
  }

  class ContrastChallengeGame {
    const store: ProgressStore
    var rounds: seq<Round>
    var roundIndex: nat
    var answers: seq<Logged>
    /** The contrast-challenge record of the therapy progress. */
    var progress: Value
    var sessionActive: bool

    /** Eight rounds, the index on one of them, and while a session runs
        one answer for each round before the current one. */
    ghost predicate Valid()
      reads this
    {
      |rounds| == SessionRounds && roundIndex < SessionRounds && |answers| <= SessionRounds
      && (sessionActive ==> |answers| == roundIndex)
    }

    constructor (store: ProgressStore, shapes: seq<Shape>)
      requires |shapes| == SessionRounds
      ensures Valid()
      ensures this.store == store && rounds == InitialRounds(shapes) && roundIndex == 0 && answers == []
      ensures progress == Get(store.Load(), "contrastChallenge") && !sessionActive
    {
      this.store := store;
      rounds := InitialRounds(shapes);
      roundIndex := 0;
      answers := [];
      progress := Get(store.Load(), "contrastChallenge");
      sessionActive := false;
    }

    /** `handleStart` (also "Restart session") with the drawn `shapes`. */
    method Start(shapes: seq<Shape>)
      requires |shapes| == SessionRounds
      modifies this
      ensures Valid()
      ensures rounds == SessionRoundsOf(shapes) && answers == [] && roundIndex == 0 && sessionActive
      ensures progress == old(progress)
    {
      rounds := SessionRoundsOf(shapes);
      answers := [];
      roundIndex := 0;
      sessionActive := true;
    }

    /** `handleAnswer(choice)`. Outside a session nothing happens. Otherwise
        the answer is logged, and the answer to the last round finishes the
        session, whose update result is dereferenced, so that one needs a
        window. */
    method Answer(choice: Shape, nowText: string) returns (finished: bool)
      requires Valid() && store.Valid()
      requires sessionActive && roundIndex == SessionRounds - 1 ==> store.hasWindow
      modifies this, store
      ensures Valid() && store.Valid()
      ensures rounds == old(rounds)
      ensures finished <==> old(sessionActive) && old(roundIndex) == SessionRounds - 1
      ensures !old(sessionActive) ==>
                answers == old(answers) && roundIndex == old(roundIndex) && !sessionActive
                && progress == old(progress) && store.entry == old(store.entry)
      ensures old(sessionActive) ==>
                var round := old(rounds[roundIndex]);
                answers == old(answers) + [Logged(round, round.shape == choice)]
                && CorrectCount(answers) == old(CorrectCount(answers)) + (if round.shape == choice then 1 else 0)
      ensures old(sessionActive) && !finished ==>
                roundIndex == old(roundIndex) + 1 && sessionActive
                && progress == old(progress) && store.entry == old(store.entry)
      ensures finished ==>
                |answers| == SessionRounds && !sessionActive && roundIndex == old(roundIndex)
                && progress == BestRecord("bestStreak", old(progress), CorrectCount(answers))
                && store.Load() == Updated(old(store.Load()), map["contrastChallenge" := progress], nowText)
    {
      if !sessionActive {
        return false;
      }
      var round := rounds[roundIndex];
      var answer := Logged(round, round.shape == choice);
      CorrectCountAppend(answers, answer);
      answers := answers + [answer];
      if roundIndex >= SessionRounds - 1 {
        sessionActive := false;
        var record := BestRecord("bestStreak", progress, CorrectCount(answers));
        store.UpdateGame("contrastChallenge", record, nowText);
        progress := record;
        return true;
      }
      roundIndex := roundIndex + 1;
      finished := false;
    }

    /** "Clear results", offered only between sessions. */
    method ClearResults()
      requires Valid() && !sessionActive
      modifies this
      ensures Valid()
      ensures answers == [] && CorrectCount(answers) == 0
      ensures rounds == old(rounds) && roundIndex == old(roundIndex) && !sessionActive && progress == old(progress)
    {
      answers := [];
    }
  }
}
