/** The quiz session: the state the quiz page keeps between interactions,
    made an explicit object. `started` stands for "a question set is stored";
    restarting deletes every stored value, which here means clearing every
    field back to its initial value. */
module Quiz {
  import opened QuestionSource
  import opened QuizLog

  /** What configuring reported. */
  datatype ConfigureOutcome =
    | Rebuilt      // a new question set was drawn and the counters zeroed
    | Kept         // the stored session matches the configuration: nothing changed
    | NoQuestions  // a rebuild was due but the bank was empty: nothing changed

  /** What submitting an answer reported. */
  datatype SubmitOutcome = Accepted | NotInProgress

  /** What pressing an answer button reported. */
  datatype PressOutcome = Pressed | NoSuchButton | NotAnswerable

  /** What the summary page shows once every pooled question is answered. */
  datatype Summary = Summary(score: int, outOf: nat, percentage: Option<real>, mistakes: seq<Answer>)

  /** The answer buttons the page draws for a question, in order, and whether
      drawing them stopped on an IndexError. Buttons drawn before the error
      are on the page and can be pressed. */
  datatype ButtonRow = ButtonRow(drawn: seq<string>, raised: bool)

  /** The buttons as the page draws them: the first three options are read
      unconditionally and the fourth only when there are more than three, so
      a question with fewer than three options draws the buttons it has and
      then raises an IndexError. */
  function AnswerButtons(options: seq<string>): (row: ButtonRow)
    ensures row.drawn == options[..Min(|options|, 4)]
    ensures row.raised <==> |options| < 3
  {
    if |options| < 1 then ButtonRow([], true)
    else if |options| < 2 then ButtonRow([options[0]], true)
    else if |options| < 3 then ButtonRow([options[0], options[1]], true)
    else ButtonRow([options[0], options[1], options[2]] + (if |options| > 3 then [options[3]] else []), false)
  }

  /** The buttons with the third one guarded like the fourth: a question with
      two or more options draws its first min(options, 4) without an error. */
  function AnswerButtonsGuarded(options: seq<string>): (row: ButtonRow)
    ensures row.drawn == options[..Min(|options|, 4)]
    ensures row.raised <==> |options| < 2
  {
    if |options| < 1 then ButtonRow([], true)
    else if |options| < 2 then ButtonRow([options[0]], true)
    else if |options| < 3 then ButtonRow([options[0], options[1]], false)
    else ButtonRow([options[0], options[1], options[2]] + (if |options| > 3 then [options[3]] else []), false)
  }

  /** The guard draws the same buttons as the page does and removes the
      error exactly for two-option questions. */
  lemma GuardRemovesOnlyTheError(options: seq<string>)
    ensures AnswerButtonsGuarded(options).drawn == AnswerButtons(options).drawn
    ensures AnswerButtons(options).raised && !AnswerButtonsGuarded(options).raised <==> |options| == 2
  {
  }

  /** A two-option question draws both buttons and then raises as written;
      guarded, it draws both buttons and nothing else happens. */
  lemma TwoOptionQuestionBreaksButtons(options: seq<string>)
    requires |options| == 2
    ensures AnswerButtons(options) == ButtonRow(options, true)
    ensures AnswerButtonsGuarded(options) == ButtonRow(options, false)
  {
    assert options[..Min(|options|, 4)] == options;
  }

  class QuizSession {
    var started: bool
    var pool: seq<Question>
    var difficulty: Difficulty
    var numQuestions: nat
    var index: int
    var score: int
    var answers: seq<Answer>

    /** No stored session: every field at its initial value. */
    ghost predicate Cleared()
      reads this
    {
      !started && pool == [] && difficulty == Beginner && numQuestions == 0 &&
      index == 0 && score == 0 && answers == []
    }

    /** The session invariant: cleared, or a session whose log, score and
        position agree (see QuizLog.Progress). */
    ghost predicate Valid()
      reads this
    {
      if started then Progress(pool, numQuestions, index, score, answers) else Cleared()
    }

    /** A new question set must be drawn when none is stored or the
        configuration differs from the stored one. */
    predicate NeedsRebuild(d: Difficulty, n: nat)
      reads this
    {
      !started || difficulty != d || numQuestions != n
    }

    /** A question is shown, and can be answered, while the position is
        inside the pool. */
    predicate InProgress()
      reads this
    {
      started && index < |pool|
    }

    /** The summary is shown once the position has left the pool. */
    predicate IsComplete()
      reads this
      ensures Valid() ==> (IsComplete() <==> started && index == |pool|)
    {
      started && !(index < |pool|)
    }

    constructor ()
      ensures Valid() && Cleared()
    {
      started, pool, difficulty, numQuestions := false, [], Beginner, 0;
      index, score, answers := 0, 0, [];
    }

    /** The configuration step run before every render. `source` is what
        reading the bank file of tier `d` yields and `shuffled` the
        permutation of that bank the shuffle produced; both are consulted only
        when a rebuild is due. */
    method Configure(source: LoadOutcome, shuffled: seq<Question>, d: Difficulty, n: nat)
      returns (outcome: ConfigureOutcome)
      requires Valid()
      requires source.file == BankFile(d)
      requires multiset(shuffled) == multiset(LoadQuestions(source))
      modifies this
      ensures Valid()
      ensures !old(NeedsRebuild(d, n)) ==> outcome == Kept && unchanged(this)
      ensures old(NeedsRebuild(d, n)) && LoadQuestions(source) == [] ==>
                outcome == NoQuestions && unchanged(this)
      ensures old(NeedsRebuild(d, n)) && LoadQuestions(source) != [] ==>
                outcome == Rebuilt && started && pool == SelectPool(shuffled, n) &&
                difficulty == d && numQuestions == n &&
                index == 0 && score == 0 && answers == []
      ensures outcome != NoQuestions ==> started && difficulty == d && numQuestions == n
    {
      if !started || difficulty != d || numQuestions != n {
        var questions := LoadQuestions(source);
        if questions == [] {
          return NoQuestions;
        }
        FreshPoolProgress(shuffled, n);
        pool := SelectPool(shuffled, n);
        started := true;
        difficulty := d;
        numQuestions := n;
        index := 0;
        score := 0;
        answers := [];
        outcome := Rebuilt;
      } else {
        outcome := Kept;
      }
    }

    /** Submitting an answer to the current question: log it, score it by
        plain string equality, and move on. Outside a running quiz no
        question is shown and nothing changes. */
    method Submit(selected: string) returns (outcome: SubmitOutcome)
      requires Valid()
      modifies this
      ensures Valid()
      ensures old(InProgress()) ==>
                outcome == Accepted &&
                answers == old(answers) + [EntryFor(old(pool[index]), selected)] &&
                score == old(score) + (if selected == old(pool[index].correctAnswer) then 1 else 0) &&
                index == old(index) + 1 &&
                started && pool == old(pool) &&
                difficulty == old(difficulty) && numQuestions == old(numQuestions)
      ensures !old(InProgress()) ==> outcome == NotInProgress && unchanged(this)
    {
      if !(started && index < |pool|) {
        return NotInProgress;
      }
      var q := pool[index];
      SubmitKeepsProgress(pool, numQuestions, index, score, answers, selected);
      answers := answers + [EntryFor(q, selected)];
      if selected == q.correctAnswer {
        score := score + 1;
      }
      index := index + 1;
      outcome := Accepted;
    }

    /** Pressing answer button `i` of the current question submits the label
        of that button. Every button drawn can be pressed, also on a question
        whose row of buttons stopped on an error, because the press is handled
        and the page re-run before the failing button is reached. */
    method PressButton(i: nat) returns (outcome: PressOutcome)
      requires Valid()
      modifies this
      ensures Valid()
      ensures outcome == Pressed <==> old(InProgress()) && i < Min(|old(pool[index].options)|, 4)
      ensures outcome == NotAnswerable <==> !old(InProgress())
      ensures outcome == Pressed ==>
                var q := old(pool[index]);
                answers == old(answers) + [EntryFor(q, q.options[i])] &&
                score == old(score) + (if q.options[i] == q.correctAnswer then 1 else 0) &&
                index == old(index) + 1 &&
                started && pool == old(pool) &&
                difficulty == old(difficulty) && numQuestions == old(numQuestions)
      ensures outcome != Pressed ==> unchanged(this)
    {
      if !(started && index < |pool|) {
        return NotAnswerable;
      }
      var buttons := AnswerButtons(pool[index].options);
      if i >= |buttons.drawn| {
        return NoSuchButton;
      }
      var _ := Submit(buttons.drawn[i]);
      outcome := Pressed;
    }

    /** The summary: the score is reported against the requested count, the
        percentage only when that count is positive, and the mistakes are the
        wrong answers in the order given. */
    function Report(): (s: Summary)
      reads this
      requires Valid() && IsComplete()
      ensures s.score == score && s.outOf == numQuestions && s.mistakes == Mistakes(answers)
      ensures 0 <= s.score <= s.outOf
      ensures s.percentage == Percentage(s.score, s.outOf)
      ensures s.score + |s.mistakes| == |pool|
    {
      ProgressBounds(pool, numQuestions, index, score, answers);
      MistakesComplementScore(answers);
      Summary(score, numQuestions, Percentage(score, numQuestions), Mistakes(answers))
    }

    /** The loop that shows the mistakes, collecting what it shows. */
    method CollectMistakes() returns (shown: seq<Answer>)
      ensures shown == Mistakes(answers)
    {
      shown := [];
      for i := 0 to |answers|
        invariant shown == Mistakes(answers[..i])
      {
        MistakesAppend(answers[..i], answers[i]);
        assert answers[..i + 1] == answers[..i] + [answers[i]];
        if answers[i].selected != answers[i].correct {
          shown := shown + [answers[i]];
        }
      }
      assert answers[..|answers|] == answers;
    }

    /** Restart: every stored value is deleted. */
    method Restart()
      modifies this
      ensures Valid() && Cleared()
    {
      started, pool, difficulty, numQuestions := false, [], Beginner, 0;
      index, score, answers := 0, 0, [];
    }
  }
}
