# TypoTrap core, modelled in Dafny

TypoTrap is a typosquatting-awareness trainer. A backend keeps quiz questions,
example domains, quiz results and users in an in-memory store, seeded at start-up.
A browser client walks the user through four sections: an introduction, a "spot
the fake domain" exercise, a multiple-choice quiz and a results page.

This project models the four parts of it that carry sequential logic:

- `Storage` (`storage.dfy`): the record store `MemStorage`. It is a class with
  four insertion-ordered tables and four id counters, the `create*` / `get*`
  operations, the `userId` filter on results, the username lookup and the seeding
  done by the constructor. A JavaScript `Map` is modelled by `OrderedMap.OMap`
  (`ordered_map.dfy`): the keys in insertion order plus the key-to-value table.
  The class invariant `Valid` says that each table holds exactly the ids
  `1 .. counter - 1`, inserted in ascending order, each record under its own id.
- `Quiz` (`quiz.dfy`): the quiz engine `QuizSection`. It is a class holding the
  question index, one optional answer per question and the feedback flag, with
  the guarded select / advance / retreat handlers. The score fold and the
  progress formula are pure functions with lemmas.
- `Training` (`training.dfy`): the four-section wizard `TrainingApp` with its
  progress, score and answers.
- `Example` (`example.dfy`): the exercise `InteractiveExample`. It covers the
  pairing loop, the first-and-final selection per pair, the all-answered flag,
  the feedback choice and the Start Quiz rule.
- `Scenarios` (`scenarios.dfy`): the components driven together the way the
  training page drives them, and the seed content seen through them.
- `Schema` (`schema.dfy`) and `Wrappers` (`wrappers.dfy`): the record shapes of
  shared/schema.ts and the optional value.

React state updates (`setX`) are modelled as synchronous field assignments. The
store's `async` methods are plain methods or functions. Fetched data is an
input, and a selected example domain is identified by its slot (0 or 1) within
its pair.

Progress is not monotone. Going back a question lowers the progress the quiz
reports (`Scenarios.RetreatRun`); only a forward run never lowers it
(`Scenarios.PerfectRun`). The users table declares usernames unique
(shared/schema.ts:7), but `createUser` does not check it, and neither does the
model. A result's `answers` follow the schema's text array (shared/schema.ts:38),
although the quiz produces numbers.

## Model

| member | source | states |
|---|---|---|
| `OrderedMap.Empty` | server/storage.ts:42-45 | a new Map lists nothing, and `get` yields undefined for every key |
| `OrderedMap.OMap.Get` | server/storage.ts:58 | in a well-formed map, `get(k)` is defined exactly for the keys in the insertion-order key list; the value it yields after a `set` is stated by `Set` |
| `OrderedMap.OMap.Set` | server/storage.ts:70 | after `set(k, v)`, `get(k)` yields `v`, every other key is unchanged, and a new key is appended to the key order (a present key keeps its position) |
| `OrderedMap.OMap.Values` | server/storage.ts:76 | `values()` lists one value per key, in key insertion order |
| `OrderedMap.SetFreshAppends` | server/storage.ts:70 | setting an absent key appends its value to the end of the listing |
| `Schema.InsertUser.WithId` | server/storage.ts:69 | the stored record `{ ...x, id }` carries the assigned id, and dropping the id gives back the payload |
| `Schema.InsertQuizQuestion.WithId` | server/storage.ts:85 | the stored record `{ ...x, id }` carries the assigned id, and dropping the id gives back the payload |
| `Schema.InsertQuizResult.WithId` | server/storage.ts:105 | the stored record `{ ...x, id }` carries the assigned id, and dropping the id gives back the payload |
| `Schema.InsertExampleDomain.WithId` | server/storage.ts:121 | the stored record `{ ...x, id }` carries the assigned id, and dropping the id gives back the payload |
| `Storage.DenseKeys` | server/storage.ts:68 | in a table built by the counter, an id is present exactly when `1 <= id < counter` |
| `Storage.ListingById` | server/storage.ts:75-77 | in a table built by the counter, the listing has one entry per id, and position i holds the record stored under id i + 1 |
| `Storage.UsernameLookup` | server/storage.ts:61-65 | searching the user listing finds nothing exactly when no stored id has the username; a found position i is the record under id i + 1, and no earlier id has that username |
| `Storage.Truthy` | server/storage.ts:93 | the `if (userId)` test: undefined and 0 are falsy, every other number is truthy |
| `Storage.FilterByUser` | server/storage.ts:94 | the filter keeps exactly the results whose `userId` equals `u` and keeps their ascending id order |
| `Storage.FirstByUsername` | server/storage.ts:62-64 | `find` returns the first position with that username, or nothing exactly when no user has it |
| `Storage.MemStorage.constructor` | server/storage.ts:41-54 | all four counters start at 1; after seeding, users and results are empty, the questions are the five seeds with ids 1..5, the domains are the six seeds with ids 1..6, and the next ids are 6 and 7 |
| `Storage.MemStorage.GetUser` | server/storage.ts:57-59 | a user is found exactly for ids below the counter, and it carries that id |
| `Storage.MemStorage.GetUserByUsername` | server/storage.ts:61-65 | returns the user with the smallest id among those with that username, or undefined exactly when no user has it |
| `Storage.MemStorage.CreateUser` | server/storage.ts:67-72 | the user is the input plus the old counter as id; the counter grows by one; get on that id yields the user; every other id, the other three tables and their counters are unchanged; the user is appended to the listing |
| `Storage.MemStorage.GetQuizQuestions` | server/storage.ts:75-77 | lists every question, the one at position i having id i + 1 (insertion order is ascending id order) |
| `Storage.MemStorage.GetQuizQuestion` | server/storage.ts:79-81 | a question is found exactly for ids below the counter, and it carries that id |
| `Storage.MemStorage.CreateQuizQuestion` | server/storage.ts:83-88 | input plus old counter as id; counter + 1; create-then-get round trip; all other entries and tables unchanged; appended to the listing |
| `Storage.MemStorage.GetQuizResults` | server/storage.ts:91-97 | with a truthy `userId`, exactly the stored results of that user; with undefined or 0, all results; always in ascending id order |
| `Storage.MemStorage.GetQuizResult` | server/storage.ts:99-101 | a result is found exactly for ids below the counter, and it carries that id |
| `Storage.MemStorage.CreateQuizResult` | server/storage.ts:103-108 | input plus old counter as id; counter + 1; create-then-get round trip; all other entries and tables unchanged; appended to the listing |
| `Storage.MemStorage.GetExampleDomains` | server/storage.ts:111-113 | lists every domain, the one at position i having id i + 1 |
| `Storage.MemStorage.GetExampleDomain` | server/storage.ts:115-117 | a domain is found exactly for ids below the counter, and it carries that id |
| `Storage.MemStorage.CreateExampleDomain` | server/storage.ts:119-124 | input plus old counter as id; counter + 1; create-then-get round trip; all other entries and tables unchanged; appended to the listing |
| `Storage.MemStorage.InitializeQuizQuestions` | server/storage.ts:127-189 | the seed questions are appended in list order with consecutive ids from the old counter; nothing else changes |
| `Storage.MemStorage.InitializeExampleDomains` | server/storage.ts:192-229 | the seed domains are appended in list order with consecutive ids from the old counter; nothing else changes |
| `Storage.SeedQuestionsWellFormed` | server/storage.ts:128-184 | every seeded question has four options and its correct answer indexes one of them |
| `Storage.SeedDomainsPaired` | server/storage.ts:193-224 | the seeded domains have even length, and each adjacent pair has exactly one legitimate entry |
| `Quiz.Expected` | client/src/components/QuizSection.tsx:63 | `questions[index]?.correctAnswer`: undefined exactly when the index is outside the list, otherwise that question's correct answer |
| `Quiz.Score` | client/src/components/QuizSection.tsx:62-67 | the score fold never exceeds the number of answers |
| `Quiz.ScoreCountsMatches` | client/src/components/QuizSection.tsx:62-67 | the score equals the number of positions whose answer equals that question's correct answer |
| `Quiz.ScoreSnoc` | client/src/components/QuizSection.tsx:62-67 | folding one more answer adds one exactly when it matches its question |
| `Quiz.AllCorrectScoresAll` | client/src/components/QuizSection.tsx:62-67 | all answers correct gives a score equal to the number of answers |
| `Quiz.NoneCorrectScoresZero` | client/src/components/QuizSection.tsx:62-67 | no answer correct gives score 0 |
| `Quiz.Numbers` | client/src/components/QuizSection.tsx:70 | the `as number[]` cast keeps every answer, in place, once all are defined |
| `Quiz.Unanswered` | client/src/components/QuizSection.tsx:33 | the init effect gives one undefined answer per question |
| `Quiz.Progress` | client/src/components/QuizSection.tsx:39-40 | the formula gives the initial progress exactly at index 0, and would reach initial + 40 at index n (the quiz spans a 40-point band) |
| `Quiz.ProgressBounds` | client/src/components/QuizSection.tsx:39-40 | for a question index in range, the progress lies in [initial, initial + 40) |
| `Quiz.ProgressStep` | client/src/components/QuizSection.tsx:39-40 | the first question reports the initial progress, and each step forward adds exactly 40 / n |
| `Quiz.QuizProgressRange` | client/src/components/QuizSection.tsx:36-43 | with the initial progress of 40 that the page passes, the quiz reports values in [40, 80) |
| `Quiz.QuizSection.constructor` | client/src/components/QuizSection.tsx:27-34 | mounting starts at question 0 with no feedback and every answer undefined, and the invariant holds |
| `Quiz.QuizSection.QuestionsChanged` | client/src/components/QuizSection.tsx:31-34 | a new question list resets the answers to undefined and keeps the index and feedback flag |
| `Quiz.QuizSection.CurrentAnswer` | client/src/components/QuizSection.tsx:53 | `userAnswers[currentQuestionIndex]`: undefined when there are no questions, the current question's answer otherwise, and always defined while feedback is shown |
| `Quiz.QuizSection.PreviousDisabled` | client/src/components/QuizSection.tsx:214 | the Previous button is disabled only where the quiz reports its initial progress; `HandlePreviousQuestion` changes nothing exactly when it is disabled |
| `Quiz.QuizSection.View` | client/src/components/QuizSection.tsx:90-134 | loading shows the spinner; otherwise an error shows the error view; otherwise "No Questions Available" shows exactly when there are no questions, and else the current question, at the current index, which is in range |
| `Quiz.QuizSection.ReportedProgress` | client/src/components/QuizSection.tsx:36-43 | nothing is reported exactly when there are no questions; otherwise the reported value is `Progress(initial, index, n)`, i.e. initial + index * 40 / n, which lies in [initial, initial + 40) |
| `Quiz.QuizSection.HandleAnswerSelect` | client/src/components/QuizSection.tsx:45-50 | writes only the current question's answer; the index, the feedback flag and the other answers are unchanged; the invariant is kept |
| `Quiz.QuizSection.OnOptionSelect` | client/src/components/QuizSection.tsx:153-187 | a click on an option: while feedback is shown the options are disabled and the answers are unchanged; otherwise it records the option for the current question as `HandleAnswerSelect` does; the invariant is kept |
| `Quiz.QuizSection.HandleNextQuestion` | client/src/components/QuizSection.tsx:52-74 | a no-op while unanswered; with feedback hidden it only shows feedback; with feedback shown it hides it and either moves to the next index or, on the last question, emits completion with all answers defined, the numeric answers and the score; the emitted answers have one entry per question and the score is at most the question count; the invariant is kept |
| `Quiz.QuizSection.HandlePreviousQuestion` | client/src/components/QuizSection.tsx:76-83 | always leaves feedback hidden; with feedback shown the index is kept, otherwise it steps back from a positive index; index and feedback stay unchanged exactly when the Previous button is disabled (line 214); the invariant is kept |
| `Training.EntryProgressIncreases` | client/src/pages/TrainingApp.tsx:14-41 | the progress set when a section is entered strictly increases along intro, example, quiz, results (0 < 20 < 40 < 100) |
| `Training.TrainingApp.constructor` | client/src/pages/TrainingApp.tsx:14-17 | the page starts on intro with progress 0, score 0 and no answers |
| `Training.TrainingApp.SkipToQuizOffered` | client/src/pages/TrainingApp.tsx:59 | skip-to-quiz is offered exactly on the intro and example sections |
| `Training.TrainingApp.HandleStartTraining` | client/src/pages/TrainingApp.tsx:27-30 | section becomes example and progress 20; score and answers are untouched |
| `Training.TrainingApp.HandleStartQuiz` | client/src/pages/TrainingApp.tsx:32-35 | section becomes quiz and progress 40; score and answers are untouched |
| `Training.TrainingApp.HandleQuizCompleted` | client/src/pages/TrainingApp.tsx:37-42 | stores the given answers and score, shows results and sets progress 100 |
| `Training.TrainingApp.HandleRestartTraining` | client/src/pages/TrainingApp.tsx:44-49 | yields exactly the initial state, whatever the state before |
| `Training.TrainingApp.UpdateProgress` | client/src/pages/TrainingApp.tsx:51-53 | progress is overwritten with the given value and nothing else changes |
| `Example.BuildPairs` | client/src/components/InteractiveExample.tsx:31-42 | a list of length L yields L div 2 pairs; pair k is built from positions 2k and 2k + 1, has id k + 1, and is unanswered with no selection |
| `Example.PairingCoversPositions` | client/src/components/InteractiveExample.tsx:33-37 | position j lands in pair j div 2 at slot j mod 2; the only position left out is the last one of an odd-length list |
| `Example.PairsFlatten` | client/src/components/InteractiveExample.tsx:31-42 | read pair by pair, the pairs list exactly the first 2 * (L div 2) fetched domains in order, so each of them is in exactly one pair |
| `Example.FlattenPrefix` | client/src/components/InteractiveExample.tsx:31-42 | the first m pairs list exactly the first 2m fetched domains in order |
| `Example.FreshPairsUnanswered` | client/src/components/InteractiveExample.tsx:35-40 | freshly built pairs are numbered from 1, unanswered and without a selection |
| `Example.EveryAnswered` | client/src/components/InteractiveExample.tsx:55 | `every` is true exactly when every pair is answered |
| `Example.FirstLegitimate` | client/src/components/InteractiveExample.tsx:133 | `find` picks the first legitimate domain of the pair, and finds none exactly when neither is legitimate |
| `Example.LegitimateExplanation` | client/src/components/InteractiveExample.tsx:133 | the explanation shown is that of the first domain of the pair if it is legitimate, else that of the second if it is, else nothing |
| `Example.FeedbackFor` | client/src/components/InteractiveExample.tsx:116-137 | the panel appears exactly for answered pairs; it says correct exactly when the selected domain is legitimate, and otherwise shows the first legitimate domain's explanation |
| `Example.FeedbackOfOneLegitimatePair` | client/src/components/InteractiveExample.tsx:122-134 | in a pair with exactly one legitimate domain, picking it is correct, and picking the other shows the legitimate domain's explanation |
| `Example.HighlightOf` | client/src/components/InteractiveExample.tsx:101-109 | tiles are selectable until the pair is answered; then the legitimate domain is marked, and a non-legitimate domain is marked wrong exactly when it is the one selected (compared by slot) |
| `Example.HighlightAgreesWithFeedback` | client/src/components/InteractiveExample.tsx:101-137 | for an answered pair with one legitimate domain, exactly one tile is marked legitimate, and a tile is marked as the wrong pick exactly when the panel says incorrect |
| `Example.InteractiveExample.constructor` | client/src/components/InteractiveExample.tsx:21-22 | the exercise starts with no pairs and `allAnswered` false |
| `Example.InteractiveExample.OnDomainsLoaded` | client/src/components/InteractiveExample.tsx:27-45 | the fetched list, or the empty list when there is none, is cut into pairs as the pairing loop does, and Start Quiz is disabled afterwards exactly when fewer than two domains were fetched |
| `Example.InteractiveExample.HandleDomainSelect` | client/src/components/InteractiveExample.tsx:48-57 | the chosen pair becomes answered with the chosen domain; all other pairs are unchanged; `allAnswered` is true exactly when every pair is answered; whether Start Quiz is disabled is unchanged |
| `Example.InteractiveExample.OnTileClick` | client/src/components/InteractiveExample.tsx:100 | a click on an answered pair changes nothing, so the first selection is final; otherwise it selects as above; either way whether Start Quiz is disabled is unchanged |
| `Example.InteractiveExample.StartQuizDisabled` | client/src/components/InteractiveExample.tsx:166 | Start Quiz is disabled exactly when there are no pairs; `OnDomainsLoaded` ties this to fewer than two fetched domains, and answering never changes it |
| `Scenarios.PerfectRun` | client/src/pages/TrainingApp.tsx:27-53 | starting, answering every question correctly and finishing ends on results with progress 100, the full score and the correct answers; the progress values seen are 0, 20, 40, ... and never decrease |
| `Scenarios.RetreatRun` | client/src/components/QuizSection.tsx:36-83 | moving past the first question and going back lowers the reported progress from 40 + 40/n to 40 |
| `Scenarios.RestartTwice` | client/src/pages/TrainingApp.tsx:44-49 | restarting after a completed run gives the initial state, and restarting again changes nothing |
| `Scenarios.FetchSeededQuestion` | server/storage.ts:127-189 | in a freshly started store, question ids 1..5 yield exactly the seeded questions and every other id yields nothing |
| `Scenarios.SubmitAndList` | server/storage.ts:91-108 | the first result stored gets id 1 and is the whole listing, whether filtered by its own user id or not |
| `Scenarios.OnlyResult` | server/storage.ts:91-97 | a store whose only result is `created` lists exactly `[created]` when asked for that result's own user id, truthy or not |
| `Scenarios.SeededScores` | server/storage.ts:128-184 | the seeded correct answers are 3, 3, 3, 0, 2; that answer sheet scores 5, and the sheet 0, 3, 0, 0, 1 scores 2 |
| `Scenarios.SeedPairs` | server/storage.ts:193-224 | the seeded domains form three pairs, each with the legitimate domain first and the typosquatted one second |

## Left out

- The HTTP layer (server/routes.ts) is not part of this model. It holds `parseInt`/`isNaN` checks, zod validation and status codes around the store calls, all of it library code and I/O.
- The drizzle/zod declarations in shared/schema.ts have no behaviour. They only shape the datatypes in `Schema`.
- The results page (ResultsSection.tsx) is not part of this model. Its percentage is floating-point (`Math.round`), and the rest is SVG drawing, a timer and an alert.
- IntroSection.tsx, Header.tsx, Footer.tsx and main.tsx are not part of this model: they are static presentation and mounting. Header.tsx never uses the skip-to-quiz callback, so `SkipToQuizOffered` models the condition the page computes, not a reachable button.
- Network fetching is not modelled. Fetched questions and domains are inputs, and loading and error states are flags passed to `Quiz.QuizSection.View`.
- Animations, styling classes and the framer-motion transitions are left out.
- Progress is a Dafny `real`, so the floating-point rounding of `40 / questions.length` is not modelled.
- Quiz.QuizSection.HandleAnswerSelect: requires at least one question. With no questions no option is rendered. The JavaScript write past the end of an empty array, which would lengthen it, is not modelled.
- Quiz.QuizSection.QuestionsChanged: requires the first question to be current with no feedback shown. The question list is fetched once and never refetched, so it changes only while the quiz is loading. A later change, which would reset answers without resetting the index, is not modelled.
- Storage.MemStorage.GetQuizResults: the optional `userId` is an `Option<int>`. A `NaN` argument, also falsy in JavaScript, is not modelled, because the HTTP layer rejects it before calling the store.
- Example.InteractiveExample.HandleDomainSelect: the source copies the array shallowly and mutates the pair object in place, so the old array shares the updated pair. The model replaces the pair by value. Nothing reads the old array afterwards, so this aliasing is not modelled.
- The client never submits a quiz result: `handleQuizCompleted` (client/src/pages/TrainingApp.tsx:37-42) only stores the answers and score in page state, and no client component posts to `/api/quiz-results`, so no client call into `CreateQuizResult` is modelled.
