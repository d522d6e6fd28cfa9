/** Whole quiz attempts driven through the session's methods, each stating
    what a user of the page sees at its end. They rely only on the
    contracts of QuizSession. */
module QuizScenarios {
  import opened QuestionSource
  import opened QuizLog
  import opened Quiz

  const StockQuestion := Question("What is a stock?", ["Ownership share", "Bond", "Currency", "Loan"], "Ownership share")

  /** One question, requested count 1, the wrong option picked: score 0 of 1,
      0 percent, and the one answer listed as a mistake. */
  method OneWrongAnswer() returns (s: Summary)
    ensures s == Summary(0, 1, Some(0.0), [Answer("What is a stock?", "Bond", "Ownership share")])
  {
    var session := new QuizSession();
    var bank := [StockQuestion];
    var configured := session.Configure(Loaded(BankFile(Beginner), bank), bank, Beginner, 1);
    assert session.pool == [StockQuestion];
    var submitted := session.Submit("Bond");
    assert session.answers == [Answer("What is a stock?", "Bond", "Ownership share")];
    s := session.Report();
  }

  /** Three questions in the bank and five requested: the pool is the whole
      shuffled bank, cut to three rather than refused. */
  method ShortBankTruncates() returns (outcome: ConfigureOutcome, pool: seq<Question>)
    ensures outcome == Rebuilt && |pool| == 3
    ensures pool == [Question("What is a dividend?", ["Payout", "Fee", "Tax"], "Payout"),
                     StockQuestion,
                     Question("What is a bond?", ["Debt", "Equity", "Option"], "Debt")]
  {
    var session := new QuizSession();
    var q2 := Question("What is a bond?", ["Debt", "Equity", "Option"], "Debt");
    var q3 := Question("What is a dividend?", ["Payout", "Fee", "Tax"], "Payout");
    var bank := [StockQuestion, q2, q3];
    var shuffled := [q3, StockQuestion, q2];
    assert multiset(shuffled) == multiset(bank);
    outcome := session.Configure(Loaded(BankFile(Intermediate), bank), shuffled, Intermediate, 5);
    pool := session.pool;
  }

  /** A one-question bank with five requested, answered correctly: the score
      is reported against the five requested, 1 out of 5, 20 percent. */
  method ShortBankScoresAgainstRequest() returns (s: Summary)
    ensures s == Summary(1, 5, Some(20.0), [])
  {
    var session := new QuizSession();
    var bank := [StockQuestion];
    var configured := session.Configure(Loaded(BankFile(Beginner), bank), bank, Beginner, 5);
    assert session.pool == bank;
    var submitted := session.Submit("Ownership share");
    assert session.answers == [Answer("What is a stock?", "Ownership share", "Ownership share")];
    s := session.Report();
  }

  /** Once every question is answered, a further submission is refused and
      the session stays as it was. */
  method SubmitAfterCompletion() returns (late: SubmitOutcome, index: int, answered: nat)
    ensures late == NotInProgress && index == 1 && answered == 1
  {
    var session := new QuizSession();
    var bank := [StockQuestion];
    var configured := session.Configure(Loaded(BankFile(Advanced), bank), bank, Advanced, 5);
    var first := session.Submit("Ownership share");
    late := session.Submit("Bond");
    index, answered := session.index, |session.answers|;
  }

  /** A bank file that is missing, is not valid JSON or holds no questions
      leaves a stored session exactly as it was and reports that no questions
      are available. */
  method UnavailableBankKeepsSession(session: QuizSession, source: LoadOutcome, d: Difficulty, n: nat)
    returns (outcome: ConfigureOutcome)
    requires session.Valid() && session.NeedsRebuild(d, n)
    requires source.file == BankFile(d)
    requires source.FileNotFound? || source.InvalidJson? || (source.Loaded? && source.questions == [])
    modifies session
    ensures outcome == NoQuestions && unchanged(session)
  {
    outcome := session.Configure(source, [], d, n);
  }

  /** Configuring again with the stored difficulty and count, part-way
      through a quiz, keeps the pool, the position, the score and the log. */
  method ReconfigureSameKeepsProgress(session: QuizSession, shuffled: seq<Question>, source: LoadOutcome)
    returns (outcome: ConfigureOutcome)
    requires session.Valid() && session.started
    requires source.file == BankFile(session.difficulty)
    requires multiset(shuffled) == multiset(LoadQuestions(source))
    modifies session
    ensures outcome == Kept
    ensures session.pool == old(session.pool) && session.index == old(session.index)
    ensures session.score == old(session.score) && session.answers == old(session.answers)
  {
    outcome := session.Configure(source, shuffled, session.difficulty, session.numQuestions);
  }

  /** After a restart the same configuration draws a new question set and
      zeroes the counters, unlike reconfiguring without one. */
  method RestartThenSameConfiguration(session: QuizSession, bank: seq<Question>, shuffled: seq<Question>)
    returns (outcome: ConfigureOutcome)
    requires session.Valid() && session.started
    requires bank != [] && multiset(shuffled) == multiset(bank)
    modifies session
    ensures outcome == Rebuilt
    ensures session.difficulty == old(session.difficulty) && session.numQuestions == old(session.numQuestions)
    ensures session.pool == SelectPool(shuffled, old(session.numQuestions))
    ensures session.index == 0 && session.score == 0 && session.answers == []
  {
    var d, n := session.difficulty, session.numQuestions;
    session.Restart();
    outcome := session.Configure(Loaded(BankFile(d), bank), shuffled, d, n);
  }
}
