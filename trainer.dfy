/**
 * The Number Listening Lab: a challenge drawn from a fixed list, a numeric
 * keypad that edits the user's input, a check that scores the input against
 * the challenge's answer, and a per-position comparison shown after checking.
 */
module Trainer {
  import opened Wrappers

  /** The keypad accepts at most this many characters; a fixed constant, not the answer's length. */
  const MaxInput: nat := 11

  /** One entry of the challenge list; its other fields (scenario, difficulty, traps) are display only. */
  datatype Challenge = Challenge(answer: string)

  /** The running score `{correct, total}`. */
  datatype Score = Score(correct: nat, total: nat)

  /** The colour of one answer position in the digit display. */
  datatype DigitStatus = Neutral | Missing | Correct | Incorrect

  /** The score after one more checked answer (the updater passed to `setScore`). */
  function Tally(prev: Score, isCorrect: bool): (next: Score)
    ensures next.total == prev.total + 1
    ensures next.correct == prev.correct + (if isCorrect then 1 else 0)
    ensures prev.correct <= prev.total ==> next.correct <= next.total
  {
    Score(prev.correct + (if isCorrect then 1 else 0), prev.total + 1)
  }

  /** The number of correct answers in a run of checks. */
  function CountCorrect(results: seq<bool>): nat
  {
    if results == [] then 0 else CountCorrect(results[..|results| - 1]) + (if results[|results| - 1] then 1 else 0)
  }

  /** The score after tallying a run of checks in order. */
  function Replay(start: Score, results: seq<bool>): Score
  {
    if results == [] then start else Tally(Replay(start, results[..|results| - 1]), results[|results| - 1])
  }

  /** From a zero score, the score counts the correct answers out of all answers checked. */
  lemma {:induction false} ReplayFromZero(results: seq<bool>)
    ensures Replay(Score(0, 0), results) == Score(CountCorrect(results), |results|)
    ensures CountCorrect(results) <= |results|
  {
    if results != [] {
      ReplayFromZero(results[..|results| - 1]);
    }
  }

  /** `getDigitStatus(index)` for the given result flag, input and answer. */
  function StatusAt(showResult: bool, input: string, answer: string, index: nat): (st: DigitStatus)
    ensures st == Neutral <==> !showResult
    ensures st == Missing <==> showResult && index >= |input|
    ensures st == Correct <==> showResult && index < |input| && index < |answer| && input[index] == answer[index]
  {
    if !showResult then Neutral
    else if index >= |input| then Missing
    // `answer[index]` is undefined past the answer's end, so the comparison fails
    else if index < |answer| && input[index] == answer[index] then Correct
    else Incorrect
  }

  /** The statuses the digit display shows: one per position of the answer. */
  function Diff(showResult: bool, input: string, answer: string): (d: seq<DigitStatus>)
    ensures |d| == |answer|
    ensures !showResult ==> forall i :: 0 <= i < |d| ==> d[i] == Neutral
    ensures showResult ==> forall i :: 0 <= i < |d| ==> (d[i] == Missing <==> i >= |input|)
    ensures showResult ==> forall i :: 0 <= i < |d| && i < |input| ==> (d[i] == Correct <==> input[i] == answer[i])
    ensures showResult ==> forall i :: 0 <= i < |d| ==> d[i] != Neutral
  {
    seq(|answer|, i requires 0 <= i < |answer| => StatusAt(showResult, input, answer, i))
  }

  /** Every position shows correct exactly when the input starts with the whole answer. */
  lemma AllCorrectIffPrefix(input: string, answer: string)
    ensures (forall i :: 0 <= i < |answer| ==> Diff(true, input, answer)[i] == Correct)
        <==> |answer| <= |input| && input[..|answer|] == answer
  {
    var d := Diff(true, input, answer);
    if |input| < |answer| {
      assert d[|input|] == Missing;
    } else if forall i :: 0 <= i < |answer| ==> d[i] == Correct {
      forall i | 0 <= i < |answer| ensures input[..|answer|][i] == answer[i] {
        assert d[i] == Correct;
      }
    }
  }

  /**
   * Once the keypad's full 11 characters are entered, an all-correct display
   * and a correct check agree for an 11-character answer.
   */
  lemma DisplayAgreesWithCheck(input: string, answer: string)
    requires |input| == MaxInput && |answer| == MaxInput
    ensures (forall i :: 0 <= i < |answer| ==> Diff(true, input, answer)[i] == Correct) <==> input == answer
  {
    AllCorrectIffPrefix(input, answer);
    assert input[..|answer|] == input;
  }

  class NumberTrainer {
    /** The challenge list the component draws from. */
    const challenges: seq<Challenge>
    var currentChallenge: Option<Challenge>
    var userInput: string
    var showResult: bool
    var score: Score
    /** The score record held in local storage under 'numberLabScore', if any. */
    ghost var stored: Option<Score>

    ghost predicate Valid()
      reads this
    {
      && |userInput| <= MaxInput
      && score.correct <= score.total
      && (score.total > 0 ==> stored == Some(score))
    }

    /** The answer the digit display iterates over (`currentChallenge?.answer || ''`). */
    function DisplayedAnswer(): string
      reads this
    {
      if currentChallenge.Some? then currentChallenge.value.answer else ""
    }

    /** The digit display's statuses for the current state. */
    function Statuses(): (d: seq<DigitStatus>)
      reads this
      ensures |d| == |DisplayedAnswer()|
    {
      Diff(showResult, userInput, DisplayedAnswer())
    }

    /** The Check Answer button is enabled: the keypad has taken all the characters it will take. */
    predicate CanSubmit()
      reads this
      ensures Valid() ==> (CanSubmit() <==> |userInput| >= MaxInput)
    {
      |userInput| == MaxInput
    }

    /**
     * Mounting: the saved score is restored (`saved` is `None` when nothing
     * is stored or it does not parse) and a first challenge is drawn; `pick`
     * is the value of `Math.floor(Math.random() * challenges.length)`.
     */
    constructor (challenges: seq<Challenge>, saved: Option<Score>, pick: nat)
      requires saved.Some? ==> saved.value.correct <= saved.value.total
      requires pick < |challenges| || pick == 0
      ensures Valid()
      ensures this.challenges == challenges
      ensures currentChallenge == if pick < |challenges| then Some(challenges[pick]) else None
      ensures userInput == [] && !showResult
      ensures score == (if saved.Some? then saved.value else Score(0, 0))
      ensures stored == saved
    {
      this.challenges := challenges;
      currentChallenge := if pick < |challenges| then Some(challenges[pick]) else None;
      userInput := [];
      showResult := false;
      score := if saved.Some? then saved.value else Score(0, 0);
      stored := saved;
    }

    /** `startNewChallenge`: draw a challenge and clear the input and the result. */
    method StartNewChallenge(pick: nat)
      requires Valid()
      requires pick < |challenges| || pick == 0
      modifies this`currentChallenge, this`userInput, this`showResult
      ensures Valid()
      ensures currentChallenge == if pick < |challenges| then Some(challenges[pick]) else None
      ensures currentChallenge.Some? ==> currentChallenge.value in challenges
      ensures userInput == [] && !showResult
    {
      currentChallenge := if pick < |challenges| then Some(challenges[pick]) else None;
      userInput := [];
      showResult := false;
    }

    /** `handleNumpadClick(num)`: append one character while there is room and no result is shown. */
    method HandleNumpadClick(num: char)
      requires Valid()
      modifies this`userInput
      ensures Valid()
      ensures |old(userInput)| < MaxInput && !showResult ==> userInput == old(userInput) + [num]
      ensures |old(userInput)| >= MaxInput || showResult ==> userInput == old(userInput)
    {
      if |userInput| < MaxInput && !showResult {
        userInput := userInput + [num];
      }
    }

    /** `handleBackspace`: drop the last character while no result is shown. */
    method HandleBackspace()
      requires Valid()
      modifies this`userInput
      ensures Valid()
      ensures showResult || old(userInput) == [] ==> userInput == old(userInput)
      ensures !showResult && old(userInput) != [] ==> old(userInput) == userInput + [old(userInput)[|old(userInput)| - 1]]
    {
      if !showResult {
        userInput := if userInput == [] then [] else userInput[..|userInput| - 1];
      }
    }

    /** `handleClear`: empty the input while no result is shown. */
    method HandleClear()
      requires Valid()
      modifies this`userInput
      ensures Valid()
      ensures userInput == if showResult then old(userInput) else []
    {
      if !showResult {
        userInput := [];
      }
    }

    /**
     * `checkAnswer`: show the result and score the input by exact comparison
     * with the answer; the new score is then saved since its total is positive.
     */
    method CheckAnswer()
      requires Valid() && currentChallenge.Some?
      modifies this`showResult, this`score, this`stored
      ensures Valid()
      ensures showResult
      ensures score.total == old(score.total) + 1
      ensures score.correct == old(score.correct) + (if userInput == currentChallenge.value.answer then 1 else 0)
      ensures stored == Some(score)
      ensures userInput == currentChallenge.value.answer ==> forall i :: 0 <= i < |Statuses()| ==> Statuses()[i] == Correct
    {
      showResult := true;
      var isCorrect := userInput == currentChallenge.value.answer;
      score := Tally(score, isCorrect);
      stored := Some(score);
      AllCorrectIffPrefix(userInput, currentChallenge.value.answer);
      assert isCorrect ==> userInput[..|currentChallenge.value.answer|] == userInput;
    }

    /** The Check Answer button: shown only while no result is shown and enabled only at 11 characters. */
    method Submit() returns (checked: bool)
      requires Valid() && currentChallenge.Some?
      modifies this`showResult, this`score, this`stored
      ensures Valid()
      ensures checked <==> !old(showResult) && CanSubmit()
      ensures checked ==> showResult && score == Tally(old(score), userInput == currentChallenge.value.answer)
      ensures !checked ==> showResult == old(showResult) && score == old(score) && stored == old(stored)
    {
      checked := !showResult && CanSubmit();
      if checked {
        CheckAnswer();
      }
    }

    /** `resetScore`: zero the score and remove the saved record. */
    method ResetScore()
      requires Valid()
      modifies this`score, this`stored
      ensures Valid()
      ensures score == Score(0, 0) && stored == None
    {
      score := Score(0, 0);
      stored := None;
    }
  }

  /**
   * An answer whose length is not 11 is never scored correct through the
   * Check Answer button.
   */
  method WrongLengthNeverScores(t: NumberTrainer)
    requires t.Valid() && t.currentChallenge.Some? && |t.currentChallenge.value.answer| != MaxInput
    modifies t`showResult, t`score, t`stored
    ensures t.score.correct == old(t.score.correct)
  {
    var _ := t.Submit();
  }
}
