/** Values behind a quiz attempt: the answer log, the running score it
    implies, the mistakes shown in the summary, the pool drawn from the bank
    and the percentage. Everything here is pure; the session class in module
    Quiz keeps its fields related to these functions. */
module QuizLog {
  import opened QuestionSource

  datatype Option<T> = None | Some(value: T)

  /** One submitted answer, appended to the log and never changed. */
  datatype Answer = Answer(question: string, selected: string, correct: string)

  function Min(a: int, b: int): int
  {
    if a <= b then a else b
  }

  /** An answer scores exactly when the selected text equals the correct one. */
  predicate IsCorrect(a: Answer)
  {
    a.selected == a.correct
  }

  /** The log entry that submitting `selected` for question `q` appends. */
  function EntryFor(q: Question, selected: string): Answer
  {
    Answer(q.question, selected, q.correctAnswer)
  }

  /** Number of log entries whose selected answer is the correct one. */
  function CountCorrect(log: seq<Answer>): (n: nat)
    ensures n <= |log|
  {
    if log == [] then 0
    else (if IsCorrect(log[0]) then 1 else 0) + CountCorrect(log[1..])
  }

  /** Appending one entry adds one to the count exactly when it is correct. */
  lemma {:induction false} CountCorrectAppend(log: seq<Answer>, a: Answer)
    ensures CountCorrect(log + [a]) == CountCorrect(log) + (if IsCorrect(a) then 1 else 0)
  {
    if log != [] {
      assert (log + [a])[1..] == log[1..] + [a];
      CountCorrectAppend(log[1..], a);
    }
  }

  /** The in-order filter of the log keeping the wrong answers. */
  function Mistakes(log: seq<Answer>): (r: seq<Answer>)
    ensures |r| <= |log|
    ensures forall i :: 0 <= i < |r| ==> r[i] in log && !IsCorrect(r[i])
  {
    if log == [] then []
    else (if IsCorrect(log[0]) then [] else [log[0]]) + Mistakes(log[1..])
  }

  /** The filter read one entry at a time: a wrong answer is appended at the
      end, a right one is skipped. */
  lemma {:induction false} MistakesAppend(log: seq<Answer>, a: Answer)
    ensures Mistakes(log + [a]) == Mistakes(log) + (if IsCorrect(a) then [] else [a])
  {
    if log != [] {
      assert (log + [a])[1..] == log[1..] + [a];
      MistakesAppend(log[1..], a);
    }
  }

  /** An entry is listed as a mistake if and only if it is in the log and wrong. */
  lemma {:induction false} MistakesMembership(log: seq<Answer>, a: Answer)
    ensures a in Mistakes(log) <==> a in log && !IsCorrect(a)
  {
    if log != [] {
      MistakesMembership(log[1..], a);
      assert log == [log[0]] + log[1..];
    }
  }

  /** Every entry is either counted in the score or listed as a mistake. */
  lemma {:induction false} MistakesComplementScore(log: seq<Answer>)
    ensures |Mistakes(log)| + CountCorrect(log) == |log|
  {
    if log != [] {
      MistakesComplementScore(log[1..]);
    }
  }

  /** The log matches the pool question by question, in order. */
  ghost predicate LogFollowsPool(pool: seq<Question>, log: seq<Answer>)
  {
    |log| <= |pool| &&
    forall i :: 0 <= i < |log| ==> log[i].question == pool[i].question && log[i].correct == pool[i].correctAnswer
  }

  /** The relation that every session keeps between its pool, its requested
      count, its position, its score and its log. */
  ghost predicate Progress(pool: seq<Question>, numQuestions: nat, index: int, score: int, log: seq<Answer>)
  {
    0 <= index <= |pool| <= numQuestions &&
    |log| == index &&
    score == CountCorrect(log) &&
    LogFollowsPool(pool, log)
  }

  /** The bounds of a session in progress: the score never exceeds the
      number of answers, which never exceeds the pool or the requested count. */
  lemma ProgressBounds(pool: seq<Question>, numQuestions: nat, index: int, score: int, log: seq<Answer>)
    requires Progress(pool, numQuestions, index, score, log)
    ensures 0 <= score <= index <= |pool| <= numQuestions
  {
  }

  /** Submitting an answer to the current question keeps Progress. */
  lemma SubmitKeepsProgress(pool: seq<Question>, numQuestions: nat, index: int, score: int, log: seq<Answer>, selected: string)
    requires Progress(pool, numQuestions, index, score, log)
    requires index < |pool|
    ensures Progress(pool, numQuestions, index + 1,
                     score + (if selected == pool[index].correctAnswer then 1 else 0),
                     log + [EntryFor(pool[index], selected)])
  {
    CountCorrectAppend(log, EntryFor(pool[index], selected));
  }

  /** A prefix takes no element more often than the whole sequence holds it. */
  lemma PrefixMultiset(s: seq<Question>, k: nat)
    requires k <= |s|
    ensures multiset(s[..k]) <= multiset(s)
  {
    assert s == s[..k] + s[k..];
    assert multiset(s) == multiset(s[..k]) + multiset(s[k..]);
  }

  /** The pool: the first `numQuestions` entries of the shuffled bank, or the
      whole of it when the bank is shorter (a Python slice never fails). It
      repeats no question more often than the shuffled bank and holds only
      questions from it. */
  function SelectPool(shuffled: seq<Question>, numQuestions: nat): (pool: seq<Question>)
    ensures |pool| == Min(numQuestions, |shuffled|)
    ensures pool == shuffled[..|pool|]
    ensures multiset(pool) <= multiset(shuffled)
    ensures forall q :: q in pool ==> q in shuffled
  {
    var k := Min(numQuestions, |shuffled|);
    PrefixMultiset(shuffled, k);
    shuffled[..k]
  }

  /** Drawn from a permutation of the bank, the pool has min(requested, bank)
      questions, takes no question more often than the bank holds it, and
      holds only questions from the bank. */
  lemma PoolDrawnFromBank(bank: seq<Question>, shuffled: seq<Question>, numQuestions: nat)
    requires multiset(shuffled) == multiset(bank)
    ensures |SelectPool(shuffled, numQuestions)| == Min(numQuestions, |bank|)
    ensures multiset(SelectPool(shuffled, numQuestions)) <= multiset(bank)
    ensures forall q :: q in SelectPool(shuffled, numQuestions) ==> q in bank
  {
    var pool := SelectPool(shuffled, numQuestions);
    assert |shuffled| == |multiset(shuffled)| == |multiset(bank)| == |bank|;
    forall q | q in pool
      ensures q in bank
    {
      assert q in multiset(pool);
      assert q in multiset(bank);
    }
  }

  /** A fresh session (nothing answered yet) is in Progress when the pool
      was drawn for the same requested count. */
  lemma FreshPoolProgress(shuffled: seq<Question>, numQuestions: nat)
    ensures Progress(SelectPool(shuffled, numQuestions), numQuestions, 0, 0, [])
  {
  }

  /** The summary's percentage: score over the requested count, times 100,
      computed only when the requested count is positive (exact rational
      arithmetic stands for the source's floating point). */
  function Percentage(score: nat, numQuestions: nat): (p: Option<real>)
    ensures p.Some? <==> numQuestions > 0
    ensures p.Some? ==> p.value * numQuestions as real == 100.0 * score as real
    ensures p.Some? && score <= numQuestions ==> 0.0 <= p.value <= 100.0
  {
    if numQuestions > 0 then Some((score as real / numQuestions as real) * 100.0) else None
  }
}
