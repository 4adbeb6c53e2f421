// src/components/feed/QuizCard.tsx: one quiz in the feed. The card keeps
// three state fields (`selectedAnswer`, `showResult`, `isCorrect`); option
// clicks and Submit change them, and the verdict reaches the feed through
// `onAnswer` after a 2000 ms timer, modelled here as an explicit later step.

module QuizCard {

  import opened Common

  datatype QuizKind = Mcq | Reorder | FindBug | Match | Predict

  datatype Quiz = Quiz(
    id: string,
    kind: QuizKind,
    question: string,
    options: Option<seq<string>>,
    correctAnswer: Option<int>,
    explanation: Option<string>,
    language: string,
    topic: string)

  /** `selectedAnswer === quiz.correctAnswer`: a quiz without a correct answer
      compares against `undefined` and so is never judged correct, and an
      answer judged correct is the only option the key would accept. */
  function Verdict(selected: int, correctAnswer: Option<int>): (correct: bool)
    ensures correct <==> correctAnswer.Some? && correctAnswer.value == selected
    ensures correctAnswer.None? ==> !correct
    ensures correct ==> forall other :: other != selected ==> correctAnswer != Some(other)
  {
    correctAnswer == Some(selected)
  }

  /** A quiz with no correct answer recorded cannot be answered correctly. */
  lemma NoKeyNeverCorrect(selected: int)
    ensures !Verdict(selected, None)
  {
  }

  /** Exactly one option of a keyed quiz is judged correct. */
  lemma OneCorrectOption(key: int, a: int, b: int)
    requires Verdict(a, Some(key)) && Verdict(b, Some(key))
    ensures a == b
  {
  }

  /** The option buttons exist only for a multiple-choice quiz that has options. */
  predicate HasOption(q: Quiz, i: int)
  {
    q.kind == Mcq && q.options.Some? && 0 <= i < |q.options.value|
  }

  class QuizCardState {
    const quiz: Quiz
    var selectedAnswer: Option<int>
    var showResult: bool
    var isCorrect: bool
    /** The verdict an `onAnswer` timer will deliver, when one is running. */
    var pendingAnswer: Option<bool>
    /** How many times the submission went through. */
    ghost var submissions: nat

    ghost predicate Valid()
      reads this
    {
      && submissions <= 1
      && (showResult <==> submissions == 1)
      && (showResult ==> selectedAnswer.Some? && isCorrect == Verdict(selectedAnswer.value, quiz.correctAnswer))
      && (pendingAnswer.Some? ==> showResult && pendingAnswer.value == isCorrect)
    }

    constructor (q: Quiz)
      ensures Valid()
      ensures quiz == q && selectedAnswer == None && !showResult && !isCorrect
      ensures pendingAnswer == None && submissions == 0
    {
      quiz := q;
      selectedAnswer := None;
      showResult := false;
      isCorrect := false;
      pendingAnswer := None;
      submissions := 0;
    }

    /** Clicking option `i`: `!showResult && setSelectedAnswer(i)`. */
    method ClickOption(i: int)
      requires Valid() && HasOption(quiz, i)
      modifies this
      ensures Valid()
      ensures selectedAnswer == if old(showResult) then old(selectedAnswer) else Some(i)
      ensures showResult == old(showResult) && isCorrect == old(isCorrect)
      ensures pendingAnswer == old(pendingAnswer) && submissions == old(submissions)
    {
      if !showResult {
        selectedAnswer := Some(i);
      }
    }

    /** The submit button: disabled while nothing is selected and removed once
        the result shows; otherwise `handleSubmit` records the verdict, shows
        the result and starts the `onAnswer` timer. */
    method ClickSubmit()
      requires Valid()
      modifies this
      ensures Valid()
      ensures old(showResult) || old(selectedAnswer) == None ==>
        showResult == old(showResult) && isCorrect == old(isCorrect) &&
        pendingAnswer == old(pendingAnswer) && submissions == old(submissions)
      ensures !old(showResult) && old(selectedAnswer).Some? ==>
        showResult && isCorrect == Verdict(old(selectedAnswer).value, quiz.correctAnswer) &&
        pendingAnswer == Some(isCorrect) && submissions == 1
      ensures selectedAnswer == old(selectedAnswer)
    {
      if !showResult && selectedAnswer.Some? {
        var correct := Verdict(selectedAnswer.value, quiz.correctAnswer);
        isCorrect := correct;
        showResult := true;
        pendingAnswer := Some(correct);
        submissions := submissions + 1;
      }
    }

    /** The 2000 ms timer fires: `onAnswer(correct)` receives the verdict
        captured at submission, once. */
    method FireAnswerTimer() returns (answer: Option<bool>)
      requires Valid()
      modifies this
      ensures Valid()
      ensures answer == old(pendingAnswer) && pendingAnswer == None
      ensures answer.Some? ==> answer.value == isCorrect && showResult
      ensures selectedAnswer == old(selectedAnswer) && showResult == old(showResult)
      ensures isCorrect == old(isCorrect) && submissions == old(submissions)
    {
      answer := pendingAnswer;
      pendingAnswer := None;
    }
  }

  /** A card used as the feed uses it: pick option 1 of a quiz keyed 1,
      submit, and the timer reports a correct answer exactly once. */
  method SubmitOnceScenario(q: Quiz) returns (first: Option<bool>, second: Option<bool>)
    requires HasOption(q, 1) && HasOption(q, 0) && q.correctAnswer == Some(1)
    ensures first == Some(true) && second == None
  {
    var card := new QuizCardState(q);
    card.ClickOption(1);
    card.ClickSubmit();
    assert card.showResult && card.isCorrect;
    card.ClickOption(0);
    assert card.selectedAnswer == Some(1);
    card.ClickSubmit();
    assert card.submissions == 1;
    first := card.FireAnswerTimer();
    second := card.FireAnswerTimer();
  }
}
