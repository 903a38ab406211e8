/**
 * Runs of the client components wired together the way the training page wires
 * them, and the seed content seen through them.
 */
module Scenarios {
  import opened Wrappers
  import opened Schema
  import opened Storage
  import opened Quiz
  import opened Training
  import opened Example

  ghost predicate Nondecreasing(s: seq<real>)
  {
    forall i, j :: 0 <= i < j < |s| ==> s[i] <= s[j]
  }

  lemma ExtendNondecreasing(s: seq<real>, x: real)
    requires |s| > 0 && Nondecreasing(s) && s[|s| - 1] <= x
    ensures Nondecreasing(s + [x]) && forall i :: 0 <= i < |s| ==> (s + [x])[i] == s[i]
  {
  }

  /** The correct option of every question, in question order. */
  function CorrectAnswers(questions: seq<QuizQuestion>): (r: seq<int>)
    ensures |r| == |questions| && forall i :: 0 <= i < |r| ==> r[i] == questions[i].correctAnswer
  {
    seq(|questions|, i requires 0 <= i < |questions| => questions[i].correctAnswer)
  }

  /** Select the correct option of the current, non-last question, submit it and move on. */
  method AnswerAndAdvance(quiz: QuizSection)
    requires quiz.Valid() && !quiz.showFeedback && quiz.currentQuestionIndex < |quiz.questions| - 1
    modifies quiz
    ensures quiz.Valid() && !quiz.showFeedback
    ensures quiz.questions == old(quiz.questions)
    ensures quiz.currentQuestionIndex == old(quiz.currentQuestionIndex) + 1
    ensures quiz.userAnswers == old(quiz.userAnswers)[old(quiz.currentQuestionIndex) := Some(quiz.questions[old(quiz.currentQuestionIndex)].correctAnswer)]
  {
    quiz.OnOptionSelect(quiz.questions[quiz.currentQuestionIndex].correctAnswer);
    var c := quiz.HandleNextQuestion();
    c := quiz.HandleNextQuestion();
  }

  /** Select the correct option of the last question, submit it and finish. */
  method AnswerAndFinish(quiz: QuizSection) returns (c: Completion)
    requires quiz.Valid() && !quiz.showFeedback && quiz.currentQuestionIndex == |quiz.questions| - 1
    requires forall j :: 0 <= j < quiz.currentQuestionIndex ==> quiz.userAnswers[j] == Some(quiz.questions[j].correctAnswer)
    modifies quiz
    ensures quiz.questions == old(quiz.questions)
    ensures c == Completion(CorrectAnswers(quiz.questions), |quiz.questions|)
  {
    quiz.OnOptionSelect(quiz.questions[quiz.currentQuestionIndex].correctAnswer);
    var r := quiz.HandleNextQuestion();
    r := quiz.HandleNextQuestion();
    AllCorrectScoresAll(quiz.userAnswers, quiz.questions);
    c := r.value;
  }

  /**
   * Answer every question but the last correctly, reporting the progress after
   * each move to the training page and appending it to `observed`.
   */
  method AnswerAllButLast(app: TrainingApp, quiz: QuizSection, observed: seq<real>) returns (observed': seq<real>)
    requires quiz.Valid() && |quiz.questions| > 0 && quiz.initialProgress == 40.0
    requires quiz.currentQuestionIndex == 0 && !quiz.showFeedback
    requires app.currentSection == QuizStep && app.progress == 40.0
    requires |observed| >= 4 && Nondecreasing(observed) && observed[|observed| - 1] == 40.0
    modifies app, quiz
    ensures quiz.Valid() && quiz.questions == old(quiz.questions) && quiz.initialProgress == 40.0
    ensures quiz.currentQuestionIndex == |quiz.questions| - 1 && !quiz.showFeedback
    ensures forall j :: 0 <= j < quiz.currentQuestionIndex ==> quiz.userAnswers[j] == Some(quiz.questions[j].correctAnswer)
    ensures app.currentSection == QuizStep && app.progress == Progress(40.0, |quiz.questions| - 1, |quiz.questions|)
    ensures |observed'| >= |observed| && forall i :: 0 <= i < |observed| ==> observed'[i] == observed[i]
    ensures Nondecreasing(observed') && observed'[|observed'| - 1] == app.progress
  {
    var n := |quiz.questions|;
    ProgressStep(40.0, 0, n);
    observed' := observed;
    var i := 0;
    while i < n - 1
      invariant 0 <= i <= n - 1
      invariant quiz.Valid() && quiz.questions == old(quiz.questions) && quiz.initialProgress == 40.0
      invariant quiz.currentQuestionIndex == i && !quiz.showFeedback
      invariant forall j :: 0 <= j < i ==> quiz.userAnswers[j] == Some(quiz.questions[j].correctAnswer)
      invariant app.currentSection == QuizStep && app.progress == Progress(40.0, i, n)
      invariant |observed'| >= |observed| && forall k :: 0 <= k < |observed| ==> observed'[k] == observed[k]
      invariant Nondecreasing(observed') && observed'[|observed'| - 1] == app.progress
    {
      AnswerAndAdvance(quiz);
      i := i + 1;
      app.UpdateProgress(quiz.ReportedProgress().value);
      ProgressStep(40.0, i - 1, n);
      ExtendNondecreasing(observed', app.progress);
      observed' := observed' + [app.progress];
    }
  }

  /**
   * A user who starts the training, starts the quiz and answers every question
   * correctly, submitting and moving on each time. `observed` lists the progress
   * after every step: it never decreases, and the run ends on the results
   * section with the full score.
   */
  method PerfectRun(questions: seq<QuizQuestion>) returns (final: Snapshot, observed: seq<real>)
    requires |questions| > 0
    ensures final == Snapshot(ResultsStep, 100.0, |questions|, CorrectAnswers(questions))
    ensures |observed| >= 5 && observed[0] == 0.0 && observed[1] == 20.0 && observed[2] == 40.0
    ensures observed[|observed| - 1] == 100.0
    ensures Nondecreasing(observed)
  {
    var n := |questions|;
    var app := new TrainingApp();
    observed := [app.progress];
    app.HandleStartTraining();
    observed := observed + [app.progress];
    app.HandleStartQuiz();
    observed := observed + [app.progress];

    var quiz := new QuizSection(questions, 40.0);
    ProgressStep(40.0, 0, n);
    app.UpdateProgress(quiz.ReportedProgress().value);
    observed := observed + [app.progress];

    observed := AnswerAllButLast(app, quiz, observed);
    var c := AnswerAndFinish(quiz);
    ProgressBounds(40.0, n - 1, n);
    app.HandleQuizCompleted(c.answers, c.score);
    ExtendNondecreasing(observed, app.progress);
    observed := observed + [app.progress];
    final := app.State();
  }

  /**
   * Submitting and moving past the first question, then going back, lowers
   * the progress the quiz reports: progress is not monotone inside the quiz.
   */
  method RetreatRun(questions: seq<QuizQuestion>, choice: int) returns (before: real, after: real)
    requires |questions| >= 2
    ensures before == Progress(40.0, 1, |questions|) && after == 40.0
    ensures after < before
  {
    var quiz := new QuizSection(questions, 40.0);
    quiz.OnOptionSelect(choice);
    var c := quiz.HandleNextQuestion();
    c := quiz.HandleNextQuestion();
    before := quiz.ReportedProgress().value;
    quiz.HandlePreviousQuestion();
    after := quiz.ReportedProgress().value;
  }

  /** Restarting after a run restores the state of a freshly mounted page, and restarting again changes nothing. */
  method RestartTwice(answers: seq<int>, score: int) returns (once: Snapshot, twice: Snapshot)
    ensures once == InitialState && twice == once
  {
    var app := new TrainingApp();
    app.HandleStartTraining();
    app.HandleStartQuiz();
    app.HandleQuizCompleted(answers, score);
    app.HandleRestartTraining();
    once := app.State();
    app.HandleRestartTraining();
    twice := app.State();
  }

  /** Fetching a question from a freshly started store finds exactly the seeded ones, by id 1 .. 5. */
  method FetchSeededQuestion(id: int) returns (found: Option<QuizQuestion>)
    ensures 1 <= id <= 5 ==> found == Some(SeedQuestions[id - 1].WithId(id))
    ensures !(1 <= id <= 5) ==> found == None
  {
    var store := new MemStorage();
    found := store.GetQuizQuestion(id);
    if 1 <= id <= 5 {
      assert store.GetQuizQuestions()[id - 1] == SeededQuizQuestions[id - 1];
    }
  }

  /**
   * The first result submitted to a freshly started store gets id 1 and is the
   * whole listing, filtered by its own user id or not filtered at all.
   */
  method SubmitAndList(result: InsertQuizResult) returns (created: QuizResult, listed: seq<QuizResult>)
    ensures created == result.WithId(1)
    ensures listed == [created]
  {
    var store := new MemStorage();
    created := store.CreateQuizResult(result);
    assert store.quizResults.Values() == [created];
    listed := store.GetQuizResults(result.userId);
    OnlyResult(store, created, result.userId, listed);
  }

  /** A store holding a single result lists exactly that result when asked for its own user, or for everyone. */
  lemma OnlyResult(store: MemStorage, created: QuizResult, userId: Option<int>, listed: seq<QuizResult>)
    requires store.Valid() && store.quizResults.Values() == [created] && created.userId == userId
    requires listed == store.GetQuizResults(userId)
    ensures listed == [created]
  {
    assert [created][1..] == [];
    if Truthy(userId) {
      assert FilterByUser([created], userId.value) == [created];
    }
  }

  /** The correct options of the seeded questions, and two answer sheets scored against them. */
  lemma SeededScores()
    ensures CorrectAnswers(SeededQuizQuestions) == [3, 3, 3, 0, 2]
    ensures Score([Some(3), Some(3), Some(3), Some(0), Some(2)], SeededQuizQuestions) == 5
    ensures Score([Some(0), Some(3), Some(0), Some(0), Some(1)], SeededQuizQuestions) == 2
  {
    var q := SeededQuizQuestions;
    var good := [Some(3), Some(3), Some(3), Some(0), Some(2)];
    AllCorrectScoresAll(good, q);
    assert forall i :: 0 <= i < 5 ==> Expected(q, i) == Some([3, 3, 3, 0, 2][i]);
    var s0: seq<Option<int>> := [];
    var s1 := s0 + [Some(0)];
    ScoreSnoc(s0, q, Some(0));
    assert Score(s1, q) == 0;
    var s2 := s1 + [Some(3)];
    ScoreSnoc(s1, q, Some(3));
    assert Score(s2, q) == 1;
    var s3 := s2 + [Some(0)];
    ScoreSnoc(s2, q, Some(0));
    assert Score(s3, q) == 1;
    var s4 := s3 + [Some(0)];
    ScoreSnoc(s3, q, Some(0));
    assert Score(s4, q) == 2;
    var s5 := s4 + [Some(1)];
    ScoreSnoc(s4, q, Some(1));
    assert s5 == [Some(0), Some(3), Some(0), Some(0), Some(1)];
  }

  /** The seeded example domains form three pairs, the legitimate domain first in each. */
  lemma SeedPairs(pairs: seq<DomainPair>)
    requires PairedFrom(SeededExampleDomains, pairs)
    ensures |pairs| == 3
    ensures forall k :: 0 <= k < 3 ==> pairs[k].first.isLegitimate && !pairs[k].second.isLegitimate
  {
  }
}
