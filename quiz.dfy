/**
 * The quiz engine of the client (`QuizSection`): the current question index, one
 * optional selected option per question and the feedback flag, with the guarded
 * select / advance / retreat handlers, the final score and the reported progress.
 */
module Quiz {
  import opened Wrappers
  import opened Schema

  /** What the component shows. */
  datatype QuizView = Loading | LoadError | NoQuestions | ShowQuestion(index: int)

  /** The completion event: the answers as plain numbers and the score. */
  datatype Completion = Completion(answers: seq<int>, score: int)

  /** `questions[index]?.correctAnswer`: undefined past the end of the question list. */
  function Expected(questions: seq<QuizQuestion>, index: int): (r: Option<int>)
    ensures r.None? <==> index < 0 || |questions| <= index
    ensures r.Some? ==> r.value == questions[index].correctAnswer
  {
    if 0 <= index < |questions| then Some(questions[index].correctAnswer) else None
  }

  /** Whether the answer at `index` is strictly equal to the expected one. */
  predicate Hit(answers: seq<Option<int>>, questions: seq<QuizQuestion>, index: int)
    requires 0 <= index < |answers|
  {
    answers[index] == Expected(questions, index)
  }

  /**
   * The score `reduce` over the answers: a left fold that adds one for every
   * position whose answer matches.
   */
  function Score(answers: seq<Option<int>>, questions: seq<QuizQuestion>): (score: nat)
    ensures score <= |answers|
  {
    if answers == [] then 0
    else
      var n := |answers| - 1;
      Score(answers[..n], questions) + (if Hit(answers, questions, n) then 1 else 0)
  }

  /** Scoring one more answer adds one exactly when it matches its question. */
  lemma ScoreSnoc(answers: seq<Option<int>>, questions: seq<QuizQuestion>, a: Option<int>)
    ensures Score(answers + [a], questions) == Score(answers, questions) + (if a == Expected(questions, |answers|) then 1 else 0)
  {
    assert (answers + [a])[..|answers|] == answers;
  }

  /** The positions whose answer matches: an independent definition of the score. */
  ghost function Matches(answers: seq<Option<int>>, questions: seq<QuizQuestion>): set<int>
  {
    set i | 0 <= i < |answers| && Hit(answers, questions, i)
  }

  /** The score is the number of matching positions. */
  lemma {:induction false} ScoreCountsMatches(answers: seq<Option<int>>, questions: seq<QuizQuestion>)
    ensures Score(answers, questions) == |Matches(answers, questions)|
  {
    if answers != [] {
      var n := |answers| - 1;
      var prefix := answers[..n];
      ScoreCountsMatches(prefix, questions);
      assert forall i :: 0 <= i < n ==> (Hit(prefix, questions, i) <==> Hit(answers, questions, i));
      if Hit(answers, questions, n) {
        assert Matches(answers, questions) == Matches(prefix, questions) + {n};
      } else {
        assert Matches(answers, questions) == Matches(prefix, questions);
      }
    }
  }

  /** Answering every question correctly scores the number of answers. */
  lemma {:induction false} AllCorrectScoresAll(answers: seq<Option<int>>, questions: seq<QuizQuestion>)
    requires |answers| <= |questions|
    requires forall i :: 0 <= i < |answers| ==> answers[i] == Some(questions[i].correctAnswer)
    ensures Score(answers, questions) == |answers|
  {
    if answers != [] {
      AllCorrectScoresAll(answers[..|answers| - 1], questions);
    }
  }

  /** Answering every question wrongly scores zero. */
  lemma NoneCorrectScoresZero(answers: seq<Option<int>>, questions: seq<QuizQuestion>)
    requires forall i :: 0 <= i < |answers| ==> !Hit(answers, questions, i)
    ensures Score(answers, questions) == 0
  {
    ScoreCountsMatches(answers, questions);
    assert Matches(answers, questions) == {};
  }

  /** Whether every slot holds an answer. */
  predicate AllAnswered(answers: seq<Option<int>>)
  {
    forall i :: 0 <= i < |answers| ==> answers[i].Some?
  }

  /** `userAnswers as number[]`, legitimate once every slot is answered. */
  function Numbers(answers: seq<Option<int>>): (r: seq<int>)
    requires AllAnswered(answers)
    ensures |r| == |answers|
    ensures forall i :: 0 <= i < |r| ==> answers[i] == Some(r[i])
  {
    seq(|answers|, i requires 0 <= i < |answers| => answers[i].value)
  }

  /** `new Array(n).fill(undefined)`. */
  function Unanswered(n: nat): (r: seq<Option<int>>)
    ensures |r| == n && forall i :: 0 <= i < n ==> r[i] == None
  {
    seq(n, _ => None)
  }

  /** `initialProgress + currentQuestionIndex * (40 / questions.length)`. */
  function Progress(initialProgress: real, index: int, count: int): (r: real)
    requires count > 0
    ensures r == initialProgress <==> index == 0
    ensures index == count ==> r == initialProgress + 40.0
  {
    initialProgress + (index as real) * (40.0 / (count as real))
  }

  /** Within a quiz of `count` questions the progress lies in [initial, initial + 40). */
  lemma ProgressBounds(initialProgress: real, index: int, count: int)
    requires 0 <= index < count
    ensures initialProgress <= Progress(initialProgress, index, count) < initialProgress + 40.0
  {
    var step := 40.0 / (count as real);
    assert step > 0.0;
    assert (index as real) * step >= 0.0;
    assert (count as real) * step == 40.0;
    assert (index as real) * step < (count as real) * step;
  }

  /** The first question reports the initial progress; each step forward adds 40 / count. */
  lemma ProgressStep(initialProgress: real, index: int, count: int)
    requires count > 0
    ensures Progress(initialProgress, 0, count) == initialProgress
    ensures Progress(initialProgress, index + 1, count) == Progress(initialProgress, index, count) + 40.0 / (count as real)
    ensures Progress(initialProgress, index, count) < Progress(initialProgress, index + 1, count)
  {
    assert 40.0 / (count as real) > 0.0;
  }

  /** With the initial progress the training flow passes (40), the quiz reports values in [40, 80). */
  lemma QuizProgressRange(index: int, count: int)
    requires 0 <= index < count
    ensures 40.0 <= Progress(40.0, index, count) < 80.0
  {
    ProgressBounds(40.0, index, count);
  }

  class QuizSection {
    var questions: seq<QuizQuestion>
    const initialProgress: real
    var currentQuestionIndex: int
    var userAnswers: seq<Option<int>>
    var showFeedback: bool

    /**
     * The index stays on a question (at 0 when there is none), every earlier
     * question is answered, and feedback is only shown for an answered question.
     */
    ghost predicate Valid()
      reads this
    {
      && |userAnswers| == |questions|
      && (|questions| == 0 ==> currentQuestionIndex == 0 && !showFeedback)
      && (|questions| > 0 ==> 0 <= currentQuestionIndex < |questions|)
      && (forall i :: 0 <= i < currentQuestionIndex ==> userAnswers[i].Some?)
      && (showFeedback ==> 0 <= currentQuestionIndex < |userAnswers| && userAnswers[currentQuestionIndex].Some?)
    }

    /** Mounting: index 0, no feedback, and the answer array filled with undefined by the init effect. */
    constructor (questions: seq<QuizQuestion>, initialProgress: real)
      ensures Valid()
      ensures this.questions == questions && this.initialProgress == initialProgress
      ensures currentQuestionIndex == 0 && !showFeedback
      ensures userAnswers == Unanswered(|questions|)
    {
      this.questions := questions;
      this.initialProgress := initialProgress;
      currentQuestionIndex := 0;
      userAnswers := Unanswered(|questions|);
      showFeedback := false;
    }

    /**
     * The init effect re-running when the question list changes. The list only
     * changes once the fetch completes, while the first question is still
     * unsubmitted.
     */
    method QuestionsChanged(newQuestions: seq<QuizQuestion>)
      requires Valid() && currentQuestionIndex == 0 && !showFeedback
      modifies this
      ensures Valid()
      ensures questions == newQuestions && userAnswers == Unanswered(|newQuestions|)
      ensures currentQuestionIndex == old(currentQuestionIndex) && showFeedback == old(showFeedback)
    {
      questions := newQuestions;
      userAnswers := Unanswered(|newQuestions|);
    }

    /** `userAnswers[currentQuestionIndex]`, undefined past the end of the array. */
    function CurrentAnswer(): (r: Option<int>)
      reads this
      ensures Valid() && |questions| == 0 ==> r == None
      ensures Valid() && |questions| > 0 ==> r == userAnswers[currentQuestionIndex]
      ensures Valid() && showFeedback ==> r.Some?
    {
      if 0 <= currentQuestionIndex < |userAnswers| then userAnswers[currentQuestionIndex] else None
    }

    /** The Previous button is disabled on the first question while no feedback is shown. */
    function PreviousDisabled(): (disabled: bool)
      reads this
      ensures Valid() && disabled && |questions| > 0 ==> ReportedProgress() == Some(initialProgress)
    {
      currentQuestionIndex == 0 && !showFeedback
    }

    /** The view picked by the loading, error and no-question guards. */
    function View(isLoading: bool, hasError: bool): (v: QuizView)
      reads this
      requires Valid()
      ensures !isLoading && !hasError ==> (v == NoQuestions <==> |questions| == 0)
      ensures v.ShowQuestion? ==> 0 <= v.index < |questions|
      ensures isLoading ==> v == Loading
      ensures !isLoading && hasError ==> v == LoadError
      ensures v.ShowQuestion? ==> v.index == currentQuestionIndex
    {
      if isLoading then Loading
      else if hasError then LoadError
      else if !(0 <= currentQuestionIndex < |questions|) then NoQuestions
      else ShowQuestion(currentQuestionIndex)
    }

    /** The value the progress effect reports, or nothing when there are no questions. */
    function ReportedProgress(): (p: Option<real>)
      reads this
      requires Valid()
      ensures p.None? <==> |questions| == 0
      ensures p.Some? ==> initialProgress <= p.value < initialProgress + 40.0
      ensures p.Some? ==> p.value == Progress(initialProgress, currentQuestionIndex, |questions|)
    {
      if |questions| > 0 then
        ProgressBounds(initialProgress, currentQuestionIndex, |questions|);
        Some(Progress(initialProgress, currentQuestionIndex, |questions|))
      else None
    }

    /** `handleAnswerSelect`: records the option for the current question only. */
    method HandleAnswerSelect(answerIndex: int)
      requires Valid() && |questions| > 0
      modifies this`userAnswers
      ensures Valid()
      ensures userAnswers == old(userAnswers)[currentQuestionIndex := Some(answerIndex)]
    {
      userAnswers := userAnswers[currentQuestionIndex := Some(answerIndex)];
    }

    /**
     * A click on an option: the radio group is disabled while feedback is
     * shown, so the submitted answer cannot change until the user moves on.
     */
    method OnOptionSelect(answerIndex: int)
      requires Valid() && |questions| > 0
      modifies this`userAnswers
      ensures Valid()
      ensures old(showFeedback) ==> userAnswers == old(userAnswers)
      ensures !old(showFeedback) ==> userAnswers == old(userAnswers)[currentQuestionIndex := Some(answerIndex)]
    {
      if !showFeedback {
        HandleAnswerSelect(answerIndex);
      }
    }

    /**
     * `handleNextQuestion`: nothing while the current question is unanswered;
     * otherwise first reveal feedback, then move on, or on the last question
     * emit the completion event.
     */
    method HandleNextQuestion() returns (completion: Option<Completion>)
      requires Valid()
      modifies this`showFeedback, this`currentQuestionIndex
      ensures Valid()
      ensures old(CurrentAnswer()).None? ==>
                && currentQuestionIndex == old(currentQuestionIndex)
                && showFeedback == old(showFeedback)
                && completion == None
      ensures old(CurrentAnswer()).Some? && !old(showFeedback) ==>
                && currentQuestionIndex == old(currentQuestionIndex)
                && showFeedback
                && completion == None
      ensures old(CurrentAnswer()).Some? && old(showFeedback) && old(currentQuestionIndex) < |questions| - 1 ==>
                && currentQuestionIndex == old(currentQuestionIndex) + 1
                && !showFeedback
                && completion == None
      ensures old(CurrentAnswer()).Some? && old(showFeedback) && old(currentQuestionIndex) == |questions| - 1 ==>
                && currentQuestionIndex == old(currentQuestionIndex)
                && !showFeedback
                && AllAnswered(userAnswers)
                && completion == Some(Completion(Numbers(userAnswers), Score(userAnswers, questions)))
      ensures completion.Some? ==> |completion.value.answers| == |questions| && 0 <= completion.value.score <= |questions|
    {
      completion := None;
      if CurrentAnswer().Some? {
        if !showFeedback {
          showFeedback := true;
        } else {
          showFeedback := false;
          if currentQuestionIndex < |questions| - 1 {
            currentQuestionIndex := currentQuestionIndex + 1;
          } else {
            var score := Score(userAnswers, questions);
            completion := Some(Completion(Numbers(userAnswers), score));
          }
        }
      }
    }

    /**
     * `handlePreviousQuestion`: hide the feedback if shown, otherwise step back
     * one question if there is one.
     */
    method HandlePreviousQuestion()
      requires Valid()
      modifies this`showFeedback, this`currentQuestionIndex
      ensures Valid()
      ensures !showFeedback
      ensures old(showFeedback) ==> currentQuestionIndex == old(currentQuestionIndex)
      ensures !old(showFeedback) && old(currentQuestionIndex) > 0 ==> currentQuestionIndex == old(currentQuestionIndex) - 1
      ensures old(PreviousDisabled()) <==> currentQuestionIndex == old(currentQuestionIndex) && showFeedback == old(showFeedback)
    {
      if showFeedback {
        showFeedback := false;
      } else if currentQuestionIndex > 0 {
        currentQuestionIndex := currentQuestionIndex - 1;
        showFeedback := false;
      }
    }
  }
}
