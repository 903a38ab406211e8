/**
 * The four record shapes of the backend (users, quiz questions, quiz results,
 * example domains) and their insert payloads, i.e. the records without an id.
 * A record is its insert payload plus the id the store assigns.
 */
module Schema {
  import opened Wrappers

  type Text = seq<char>

  datatype InsertUser = InsertUser(username: Text, password: Text)
  {
    /** `{ ...insert, id }`: the stored record carries the id and, without it, is the payload again. */
    function WithId(id: int): (r: User)
      ensures r.id == id && r.Payload() == this
    {
      User(id, username, password)
    }
  }

  datatype User = User(id: int, username: Text, password: Text)
  {
    /** The record without its id. */
    function Payload(): InsertUser { InsertUser(username, password) }
  }

  datatype InsertQuizQuestion = InsertQuizQuestion(question: Text, options: seq<Text>, correctAnswer: int, explanation: Text)
  {
    /** `{ ...insert, id }`: the stored record carries the id and, without it, is the payload again. */
    function WithId(id: int): (r: QuizQuestion)
      ensures r.id == id && r.Payload() == this
    {
      QuizQuestion(id, question, options, correctAnswer, explanation)
    }
  }

  datatype QuizQuestion = QuizQuestion(id: int, question: Text, options: seq<Text>, correctAnswer: int, explanation: Text)
  {
    /** The record without its id. */
    function Payload(): InsertQuizQuestion { InsertQuizQuestion(question, options, correctAnswer, explanation) }
  }

  /** `userId` is nullable; `answers` is a text array. */
  datatype InsertQuizResult = InsertQuizResult(userId: Option<int>, score: int, completedAt: Text, answers: seq<Text>)
  {
    /** `{ ...insert, id }`: the stored record carries the id and, without it, is the payload again. */
    function WithId(id: int): (r: QuizResult)
      ensures r.id == id && r.Payload() == this
    {
      QuizResult(id, userId, score, completedAt, answers)
    }
  }

  datatype QuizResult = QuizResult(id: int, userId: Option<int>, score: int, completedAt: Text, answers: seq<Text>)
  {
    /** The record without its id. */
    function Payload(): InsertQuizResult { InsertQuizResult(userId, score, completedAt, answers) }
  }

  /** `explanation` is nullable. */
  datatype InsertExampleDomain = InsertExampleDomain(domain: Text, isLegitimate: bool, explanation: Option<Text>)
  {
    /** `{ ...insert, id }`: the stored record carries the id and, without it, is the payload again. */
    function WithId(id: int): (r: ExampleDomain)
      ensures r.id == id && r.Payload() == this
    {
      ExampleDomain(id, domain, isLegitimate, explanation)
    }
  }

  datatype ExampleDomain = ExampleDomain(id: int, domain: Text, isLegitimate: bool, explanation: Option<Text>)
  {
    /** The record without its id. */
    function Payload(): InsertExampleDomain { InsertExampleDomain(domain, isLegitimate, explanation) }
  }

  /** A quiz question whose correct answer indexes one of its options. */
  predicate WellFormedQuestion(q: InsertQuizQuestion)
  {
    0 <= q.correctAnswer < |q.options|
  }
}
