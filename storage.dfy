/**
 * The backend's in-memory record store (`MemStorage`): one insertion-ordered
 * table per entity kind, each with its own id counter that starts at 1 and is
 * advanced by exactly one per insert. The questions and example domains are
 * seeded when the store is constructed.
 */
module Storage {
  import opened Wrappers
  import opened Schema
  import opened OrderedMap

  /**
   * A table whose keys are exactly 1 .. next - 1, inserted in that order:
   * what `set(this.currentXId++, ...)` on an initially empty `Map` produces.
   */
  ghost predicate Dense<V>(m: OMap<V>, next: int)
  {
    && m.Valid()
    && 1 <= next
    && |m.keys| == next - 1
    && (forall i :: 0 <= i < |m.keys| ==> m.keys[i] == i + 1)
  }

  lemma DenseKeys<V>(m: OMap<V>, next: int, k: int)
    requires Dense(m, next)
    ensures m.Get(k).Some? <==> 1 <= k < next
  {
    if 1 <= k < next {
      assert m.keys[k - 1] == k;
    }
  }

  /** In a table built by the counter, position i of the listing holds the record with id i + 1. */
  lemma ListingById<V>(m: OMap<V>, next: int)
    requires Dense(m, next)
    ensures |m.Values()| == next - 1
    ensures forall i :: 0 <= i < next - 1 ==> m.Get(i + 1) == Some(m.Values()[i])
    ensures forall id :: 1 <= id < next ==> m.Get(id) == Some(m.Values()[id - 1])
  {
  }

  /**
   * Searching the listing of a counter-built user table for a username: no
   * position is found exactly when no stored id has that username, and a found
   * position i is the record under id i + 1, with no earlier id carrying it.
   */
  lemma UsernameLookup(m: OMap<User>, next: int, name: Text)
    requires Dense(m, next)
    ensures (FirstByUsername(m.Values(), name).None? <==>
             forall id :: 1 <= id < next ==> m.Get(id).Some? && m.Get(id).value.username != name)
    ensures FirstByUsername(m.Values(), name).Some? ==>
              var i := FirstByUsername(m.Values(), name).value;
              && i + 1 < next && m.Get(i + 1) == Some(m.Values()[i])
              && forall id :: 1 <= id <= i ==> m.Get(id).Some? && m.Get(id).value.username != name
  {
    ListingById(m, next);
  }

  /** Ids strictly increase along the listing. */
  ghost predicate IncreasingIds(rs: seq<QuizResult>)
  {
    forall i, j :: 0 <= i < j < |rs| ==> rs[i].id < rs[j].id
  }

  /** JavaScript truthiness of the optional `userId` argument: undefined and 0 are falsy. */
  function Truthy(userId: Option<int>): (b: bool)
    ensures userId == None ==> !b
    ensures userId == Some(0) ==> !b
    ensures forall n :: userId == Some(n) && n != 0 ==> b
  {
    userId.Some? && userId.value != 0
  }

  /** `results.filter(result => result.userId === u)`. */
  function FilterByUser(rs: seq<QuizResult>, u: int): (r: seq<QuizResult>)
    ensures forall x :: x in r <==> x in rs && x.userId == Some(u)
    ensures IncreasingIds(rs) ==> IncreasingIds(r)
  {
    if rs == [] then []
    else
      var rest := FilterByUser(rs[1..], u);
      assert forall x :: x in rs[1..] ==> x in rs;
      if rs[0].userId == Some(u) then [rs[0]] + rest else rest
  }

  /**
   * The position `Array.from(users.values()).find(user => user.username === name)`
   * stops at: the first user with that username.
   */
  function FirstByUsername(us: seq<User>, name: Text): (r: Option<nat>)
    ensures r.None? <==> forall i :: 0 <= i < |us| ==> us[i].username != name
    ensures r.Some? ==> && r.value < |us| && us[r.value].username == name
                        && forall j :: 0 <= j < r.value ==> us[j].username != name
  {
    if us == [] then None
    else if us[0].username == name then Some(0)
    else
      match FirstByUsername(us[1..], name)
      case None => None
      case Some(i) => Some(i + 1)
  }

  class MemStorage {
    var users: OMap<User>
    var quizQuestions: OMap<QuizQuestion>
    var quizResults: OMap<QuizResult>
    var exampleDomains: OMap<ExampleDomain>
    var currentUserId: int
    var currentQuizQuestionId: int
    var currentQuizResultId: int
    var currentExampleDomainId: int

    /**
     * Every table holds exactly the ids below its counter, in ascending id
     * (= insertion) order, and every record is stored under its own id.
     */
    ghost predicate Valid()
      reads this
    {
      && Dense(users, currentUserId)
      && Dense(quizQuestions, currentQuizQuestionId)
      && Dense(quizResults, currentQuizResultId)
      && Dense(exampleDomains, currentExampleDomainId)
      && (forall k :: users.Get(k).Some? ==> users.Get(k).value.id == k)
      && (forall k :: quizQuestions.Get(k).Some? ==> quizQuestions.Get(k).value.id == k)
      && (forall k :: quizResults.Get(k).Some? ==> quizResults.Get(k).value.id == k)
      && (forall k :: exampleDomains.Get(k).Some? ==> exampleDomains.Get(k).value.id == k)
    }

    /** Construction: empty tables, all four counters at 1, then the two seed lists are inserted. */
    constructor ()
      ensures Valid()
      ensures users.Values() == [] && quizResults.Values() == []
      ensures currentUserId == 1 && currentQuizResultId == 1
      ensures currentQuizQuestionId == 6 && currentExampleDomainId == 7
      ensures GetQuizQuestions() == SeededQuizQuestions
      ensures GetExampleDomains() == SeededExampleDomains
    {
      users := Empty();
      quizQuestions := Empty();
      quizResults := Empty();
      exampleDomains := Empty();
      currentUserId := 1;
      currentQuizQuestionId := 1;
      currentQuizResultId := 1;
      currentExampleDomainId := 1;
      new;
      InitializeQuizQuestions();
      InitializeExampleDomains();
    }

    // ---------------------------------------------------------------- users

    function GetUser(id: int): (r: Option<User>)
      reads this
      requires Valid()
      ensures r.Some? <==> 1 <= id < currentUserId
      ensures r.Some? ==> r.value.id == id
    {
      DenseKeys(users, currentUserId, id);
      users.Get(id)
    }

    /** The user with the smallest id among those with this username, if any. */
    function GetUserByUsername(username: Text): (r: Option<User>)
      reads this
      requires Valid()
      ensures r.None? <==> forall id :: 1 <= id < currentUserId ==> GetUser(id).value.username != username
      ensures r.Some? ==> && r.value.username == username
                          && GetUser(r.value.id) == r
                          && forall id :: 1 <= id < r.value.id ==> GetUser(id).value.username != username
    {
      var all := users.Values();
      UsernameLookup(users, currentUserId, username);
      match FirstByUsername(all, username)
      case None => None
      case Some(i) =>
        assert GetUser(i + 1) == Some(all[i]);
        Some(all[i])
    }

    method CreateUser(insertUser: InsertUser) returns (user: User)
      requires Valid()
      modifies this
      ensures Valid()
      ensures user == insertUser.WithId(old(currentUserId))
      ensures currentUserId == old(currentUserId) + 1
      ensures GetUser(user.id) == Some(user)
      ensures forall id :: id != user.id ==> GetUser(id) == old(GetUser(id))
      ensures users.Values() == old(users.Values()) + [user]
      ensures quizQuestions == old(quizQuestions) && quizResults == old(quizResults) && exampleDomains == old(exampleDomains)
      ensures currentQuizQuestionId == old(currentQuizQuestionId) && currentQuizResultId == old(currentQuizResultId)
      ensures currentExampleDomainId == old(currentExampleDomainId)
    {
      var id := currentUserId;
      currentUserId := currentUserId + 1;
      user := insertUser.WithId(id);
      DenseKeys(users, id, id);
      SetFreshAppends(users, id, user);
      users := users.Set(id, user);
    }

    // ------------------------------------------------------- quiz questions

    /** All questions, in ascending id order. */
    function GetQuizQuestions(): (r: seq<QuizQuestion>)
      reads this
      requires Valid()
      ensures |r| == currentQuizQuestionId - 1
      ensures forall i :: 0 <= i < |r| ==> r[i].id == i + 1 && GetQuizQuestion(i + 1) == Some(r[i])
    {
      quizQuestions.Values()
    }

    function GetQuizQuestion(id: int): (r: Option<QuizQuestion>)
      reads this
      requires Valid()
      ensures r.Some? <==> 1 <= id < currentQuizQuestionId
      ensures r.Some? ==> r.value.id == id
    {
      DenseKeys(quizQuestions, currentQuizQuestionId, id);
      quizQuestions.Get(id)
    }

    method CreateQuizQuestion(question: InsertQuizQuestion) returns (quizQuestion: QuizQuestion)
      requires Valid()
      modifies this
      ensures Valid()
      ensures quizQuestion == question.WithId(old(currentQuizQuestionId))
      ensures currentQuizQuestionId == old(currentQuizQuestionId) + 1
      ensures GetQuizQuestion(quizQuestion.id) == Some(quizQuestion)
      ensures forall id :: id != quizQuestion.id ==> GetQuizQuestion(id) == old(GetQuizQuestion(id))
      ensures quizQuestions.Values() == old(quizQuestions.Values()) + [quizQuestion]
      ensures users == old(users) && quizResults == old(quizResults) && exampleDomains == old(exampleDomains)
      ensures currentUserId == old(currentUserId) && currentQuizResultId == old(currentQuizResultId)
      ensures currentExampleDomainId == old(currentExampleDomainId)
    {
      var id := currentQuizQuestionId;
      currentQuizQuestionId := currentQuizQuestionId + 1;
      quizQuestion := question.WithId(id);
      DenseKeys(quizQuestions, id, id);
      SetFreshAppends(quizQuestions, id, quizQuestion);
      quizQuestions := quizQuestions.Set(id, quizQuestion);
    }

    // --------------------------------------------------------- quiz results

    /**
     * With a truthy `userId`, the stored results of that user; otherwise
     * (undefined or 0) every stored result. Either way in ascending id order.
     */
    function GetQuizResults(userId: Option<int>): (r: seq<QuizResult>)
      reads this
      requires Valid()
      ensures IncreasingIds(r)
      ensures forall i :: 0 <= i < |r| ==> GetQuizResult(r[i].id) == Some(r[i])
      ensures Truthy(userId) ==> forall i :: 0 <= i < |r| ==> r[i].userId == userId
      ensures forall id :: 1 <= id < currentQuizResultId
                ==> (GetQuizResult(id).value in r <==> !Truthy(userId) || GetQuizResult(id).value.userId == userId)
      ensures !Truthy(userId) ==> |r| == currentQuizResultId - 1
    {
      var all := quizResults.Values();
      ListingById(quizResults, currentQuizResultId);
      if Truthy(userId) then FilterByUser(all, userId.value) else all
    }

    function GetQuizResult(id: int): (r: Option<QuizResult>)
      reads this
      requires Valid()
      ensures r.Some? <==> 1 <= id < currentQuizResultId
      ensures r.Some? ==> r.value.id == id
    {
      DenseKeys(quizResults, currentQuizResultId, id);
      quizResults.Get(id)
    }

    method CreateQuizResult(result: InsertQuizResult) returns (quizResult: QuizResult)
      requires Valid()
      modifies this
      ensures Valid()
      ensures quizResult == result.WithId(old(currentQuizResultId))
      ensures currentQuizResultId == old(currentQuizResultId) + 1
      ensures GetQuizResult(quizResult.id) == Some(quizResult)
      ensures forall id :: id != quizResult.id ==> GetQuizResult(id) == old(GetQuizResult(id))
      ensures quizResults.Values() == old(quizResults.Values()) + [quizResult]
      ensures users == old(users) && quizQuestions == old(quizQuestions) && exampleDomains == old(exampleDomains)
      ensures currentUserId == old(currentUserId) && currentQuizQuestionId == old(currentQuizQuestionId)
      ensures currentExampleDomainId == old(currentExampleDomainId)
    {
      var id := currentQuizResultId;
      currentQuizResultId := currentQuizResultId + 1;
      quizResult := result.WithId(id);
      DenseKeys(quizResults, id, id);
      SetFreshAppends(quizResults, id, quizResult);
      quizResults := quizResults.Set(id, quizResult);
    }

    // ------------------------------------------------------ example domains

    /** All example domains, in ascending id order. */
    function GetExampleDomains(): (r: seq<ExampleDomain>)
      reads this
      requires Valid()
      ensures |r| == currentExampleDomainId - 1
      ensures forall i :: 0 <= i < |r| ==> r[i].id == i + 1 && GetExampleDomain(i + 1) == Some(r[i])
    {
      exampleDomains.Values()
    }

    function GetExampleDomain(id: int): (r: Option<ExampleDomain>)
      reads this
      requires Valid()
      ensures r.Some? <==> 1 <= id < currentExampleDomainId
      ensures r.Some? ==> r.value.id == id
    {
      DenseKeys(exampleDomains, currentExampleDomainId, id);
      exampleDomains.Get(id)
    }

    method CreateExampleDomain(domain: InsertExampleDomain) returns (exampleDomain: ExampleDomain)
      requires Valid()
      modifies this
      ensures Valid()
      ensures exampleDomain == domain.WithId(old(currentExampleDomainId))
      ensures currentExampleDomainId == old(currentExampleDomainId) + 1
      ensures GetExampleDomain(exampleDomain.id) == Some(exampleDomain)
      ensures forall id :: id != exampleDomain.id ==> GetExampleDomain(id) == old(GetExampleDomain(id))
      ensures exampleDomains.Values() == old(exampleDomains.Values()) + [exampleDomain]
      ensures users == old(users) && quizQuestions == old(quizQuestions) && quizResults == old(quizResults)
      ensures currentUserId == old(currentUserId) && currentQuizQuestionId == old(currentQuizQuestionId)
      ensures currentQuizResultId == old(currentQuizResultId)
    {
      var id := currentExampleDomainId;
      currentExampleDomainId := currentExampleDomainId + 1;
      exampleDomain := domain.WithId(id);
      DenseKeys(exampleDomains, id, id);
      SetFreshAppends(exampleDomains, id, exampleDomain);
      exampleDomains := exampleDomains.Set(id, exampleDomain);
    }

    // ---------------------------------------------------------------- seeding

    /** Inserts the seed questions one after another, in list order. */
    method InitializeQuizQuestions()
      requires Valid()
      modifies this
      ensures Valid()
      ensures currentQuizQuestionId == old(currentQuizQuestionId) + |SeedQuestions|
      ensures quizQuestions.Values() == old(quizQuestions.Values())
                + seq(|SeedQuestions|, i requires 0 <= i < |SeedQuestions| => SeedQuestions[i].WithId(old(currentQuizQuestionId) + i))
      ensures users == old(users) && quizResults == old(quizResults) && exampleDomains == old(exampleDomains)
      ensures currentUserId == old(currentUserId) && currentQuizResultId == old(currentQuizResultId)
      ensures currentExampleDomainId == old(currentExampleDomainId)
    {
      var i := 0;
      while i < |SeedQuestions|
        invariant 0 <= i <= |SeedQuestions|
        invariant Valid()
        invariant currentQuizQuestionId == old(currentQuizQuestionId) + i
        invariant quizQuestions.Values() == old(quizQuestions.Values())
                    + seq(i, j requires 0 <= j < i => SeedQuestions[j].WithId(old(currentQuizQuestionId) + j))
        invariant users == old(users) && quizResults == old(quizResults) && exampleDomains == old(exampleDomains)
        invariant currentUserId == old(currentUserId) && currentQuizResultId == old(currentQuizResultId)
        invariant currentExampleDomainId == old(currentExampleDomainId)
      {
        var created := CreateQuizQuestion(SeedQuestions[i]);
        i := i + 1;
        assert seq(i, j requires 0 <= j < i => SeedQuestions[j].WithId(old(currentQuizQuestionId) + j))
            == seq(i - 1, j requires 0 <= j < i - 1 => SeedQuestions[j].WithId(old(currentQuizQuestionId) + j)) + [created];
      }
    }

    /** Inserts the seed example domains one after another, in list order. */
    method InitializeExampleDomains()
      requires Valid()
      modifies this
      ensures Valid()
      ensures currentExampleDomainId == old(currentExampleDomainId) + |SeedDomains|
      ensures exampleDomains.Values() == old(exampleDomains.Values())
                + seq(|SeedDomains|, i requires 0 <= i < |SeedDomains| => SeedDomains[i].WithId(old(currentExampleDomainId) + i))
      ensures users == old(users) && quizQuestions == old(quizQuestions) && quizResults == old(quizResults)
      ensures currentUserId == old(currentUserId) && currentQuizQuestionId == old(currentQuizQuestionId)
      ensures currentQuizResultId == old(currentQuizResultId)
    {
      var i := 0;
      while i < |SeedDomains|
        invariant 0 <= i <= |SeedDomains|
        invariant Valid()
        invariant currentExampleDomainId == old(currentExampleDomainId) + i
        invariant exampleDomains.Values() == old(exampleDomains.Values())
                    + seq(i, j requires 0 <= j < i => SeedDomains[j].WithId(old(currentExampleDomainId) + j))
        invariant users == old(users) && quizQuestions == old(quizQuestions) && quizResults == old(quizResults)
        invariant currentUserId == old(currentUserId) && currentQuizQuestionId == old(currentQuizQuestionId)
        invariant currentQuizResultId == old(currentQuizResultId)
      {
        var created := CreateExampleDomain(SeedDomains[i]);
        i := i + 1;
        assert seq(i, j requires 0 <= j < i => SeedDomains[j].WithId(old(currentExampleDomainId) + j))
            == seq(i - 1, j requires 0 <= j < i - 1 => SeedDomains[j].WithId(old(currentExampleDomainId) + j)) + [created];
      }
    }
  }

  // ------------------------------------------------------------------ seed data

  const SeedQuestions: seq<InsertQuizQuestion> := [
    InsertQuizQuestion(
      "Which of the following is an example of typosquatting?",
      ["microsoft.com", "micosoft.com", "microsoft.org", "All of the above except the first one"],
      3,
      "Typosquatting includes misspellings (micosoft.com) and different TLDs (microsoft.org). Only microsoft.com is the legitimate domain."),
    InsertQuizQuestion(
      "Why do cybercriminals use typosquatting?",
      ["To steal personal information", "To distribute malware", "To redirect users to advertising sites", "All of the above"],
      3,
      "Cybercriminals use typosquatting for multiple malicious purposes including stealing information, distributing malware, and redirecting users to advertising or scam sites."),
    InsertQuizQuestion(
      "Which of these domains is likely NOT a typosquatting attempt?",
      ["facebok.com", "facebook-login.com", "facebook.org", "facebook.com"],
      3,
      "facebook.com is the legitimate domain. The others are examples of typosquatting through misspelling (facebok.com), adding words (facebook-login.com), or using a different TLD (facebook.org)."),
    InsertQuizQuestion(
      "Which technique can help prevent falling victim to typosquatting?",
      ["Using bookmarks for frequently visited websites", "Always typing URLs manually", "Clicking on links in promotional emails", "Disabling HTTPS security"],
      0,
      "Using bookmarks for frequently visited websites prevents mistyping URLs. Manually typing URLs increases the risk of typos, clicking on email links can be risky, and HTTPS security should always be enabled."),
    InsertQuizQuestion(
      "If you discover a typosquatting website, what should you do?",
      ["Enter your information to verify it's fake", "Ignore it and close the browser", "Report it to your IT security team", "Share the link with colleagues to warn them"],
      2,
      "You should report suspected typosquatting sites to your IT security team. Never enter information on suspicious sites, and don't share links to potential phishing sites, even as a warning.")
  ]

  const SeedDomains: seq<InsertExampleDomain> := [
    InsertExampleDomain("amazon.com", true, Some("This is the legitimate Amazon domain.")),
    InsertExampleDomain("amazom.com", false, Some("This is a typosquatted domain with a misspelling. Notice the 'm' instead of 'n' at the end.")),
    InsertExampleDomain("paypal.com", true, Some("This is the legitimate PayPal domain.")),
    InsertExampleDomain("paypa1.com", false, Some("This is a typosquatted domain with a character replacement. Notice the '1' (one) instead of 'l' (el).")),
    InsertExampleDomain("instagram.com", true, Some("This is the legitimate Instagram domain.")),
    InsertExampleDomain("instagran.com", false, Some("This is a typosquatted domain with a misspelling. Notice the 'n' instead of 'm' at the end."))
  ]

  /** The seed questions as the store lists them after construction: ids 1 .. 5. */
  const SeededQuizQuestions: seq<QuizQuestion> := seq(|SeedQuestions|, i requires 0 <= i < |SeedQuestions| => SeedQuestions[i].WithId(i + 1))

  /** The seed domains as the store lists them after construction: ids 1 .. 6. */
  const SeededExampleDomains: seq<ExampleDomain> := seq(|SeedDomains|, i requires 0 <= i < |SeedDomains| => SeedDomains[i].WithId(i + 1))

  /** Every seeded question's correct answer indexes one of its four options. */
  lemma SeedQuestionsWellFormed()
    ensures forall i :: 0 <= i < |SeedQuestions| ==> |SeedQuestions[i].options| == 4 && WellFormedQuestion(SeedQuestions[i])
  {
  }

  /** The seeded domains come in adjacent pairs with exactly one legitimate entry each. */
  lemma SeedDomainsPaired()
    ensures |SeedDomains| % 2 == 0
    ensures forall k :: 0 <= k < |SeedDomains| / 2 ==> SeedDomains[2 * k].isLegitimate != SeedDomains[2 * k + 1].isLegitimate
  {
  }
}
