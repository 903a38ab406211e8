/**
 * The training flow controller (`TrainingApp`): a four-section wizard
 * intro -> example -> quiz -> results with a 0..100 progress value, the
 * score and the answers of the last completed quiz.
 */
module Training {
  import opened Wrappers

  datatype Section = IntroStep | ExampleStep | QuizStep | ResultsStep

  /** The whole controller state at one moment. */
  datatype Snapshot = Snapshot(section: Section, progress: real, score: int, answers: seq<int>)

  /** The state right after mounting. */
  const InitialState: Snapshot := Snapshot(IntroStep, 0.0, 0, [])

  /** The progress value each section is entered with. */
  function EntryProgress(s: Section): real
  {
    match s
    case IntroStep => 0.0
    case ExampleStep => 20.0
    case QuizStep => 40.0
    case ResultsStep => 100.0
  }

  /** The next section along the forward path, if any. */
  function Forward(s: Section): Option<Section>
  {
    match s
    case IntroStep => Some(ExampleStep)
    case ExampleStep => Some(QuizStep)
    case QuizStep => Some(ResultsStep)
    case ResultsStep => None
  }

  /** Entry progress strictly increases along the forward path. */
  lemma EntryProgressIncreases(s: Section)
    requires Forward(s).Some?
    ensures EntryProgress(s) < EntryProgress(Forward(s).value)
  {
  }

  class TrainingApp {
    var currentSection: Section
    var progress: real
    var score: int
    var userAnswers: seq<int>

    function State(): Snapshot
      reads this
    {
      Snapshot(currentSection, progress, score, userAnswers)
    }

    constructor ()
      ensures State() == InitialState
    {
      currentSection := IntroStep;
      progress := 0.0;
      score := 0;
      userAnswers := [];
    }

    /** The header offers skip-to-quiz only before the quiz. */
    function SkipToQuizOffered(): (offered: bool)
      reads this
      ensures offered <==> currentSection == IntroStep || currentSection == ExampleStep
    {
      currentSection != QuizStep && currentSection != ResultsStep
    }

    /** `handleStartTraining`. */
    method HandleStartTraining()
      modifies this`currentSection, this`progress
      ensures currentSection == ExampleStep && progress == EntryProgress(ExampleStep) == 20.0
    {
      currentSection := ExampleStep;
      progress := 20.0;
    }

    /** `handleStartQuiz`, also the skip-to-quiz action. */
    method HandleStartQuiz()
      modifies this`currentSection, this`progress
      ensures currentSection == QuizStep && progress == EntryProgress(QuizStep) == 40.0
    {
      currentSection := QuizStep;
      progress := 40.0;
    }

    /** `handleQuizCompleted`: keep the answers and score, show the results. */
    method HandleQuizCompleted(answers: seq<int>, finalScore: int)
      modifies this
      ensures State() == Snapshot(ResultsStep, EntryProgress(ResultsStep), finalScore, answers)
    {
      userAnswers := answers;
      score := finalScore;
      currentSection := ResultsStep;
      progress := 100.0;
    }

    /** `handleRestartTraining`: back to exactly the initial state, whatever came before. */
    method HandleRestartTraining()
      modifies this
      ensures State() == InitialState
    {
      currentSection := IntroStep;
      progress := 0.0;
      score := 0;
      userAnswers := [];
    }

    /** `updateProgress`: the quiz overwrites the progress with any value. */
    method UpdateProgress(newProgress: real)
      modifies this`progress
      ensures progress == newProgress
    {
      progress := newProgress;
    }
  }
}
