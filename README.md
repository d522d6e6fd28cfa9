# Stock market fundamentals quiz: the session state machine

The quiz page (`app.py`) keeps one quiz attempt in the page's session state:
the drawn question set, the remembered difficulty and requested question
count, the position, the score and the answer log. On every interaction the
page first *configures* (draws a new question set when none is stored or the
difficulty or count changed, otherwise leaves everything alone), then either
shows the current question with its answer buttons or, once the position has
left the question set, shows the summary: the score out of the requested
count, the percentage, the mistakes, and a restart button that deletes every
stored value.

This project models that state machine in Dafny:

- `QuestionSource` (`question_source.dfy`): question records, the three
  difficulty tiers with their bank files, and the loader, whose missing-file
  and bad-JSON failures both degrade to an empty bank. A loader outcome
  records the file it was read from, and configuring requires it to be the
  bank file of the chosen tier.
- `QuizLog` (`quiz_log.dfy`): the answer log as values: the log entry a
  submission appends, the number of correct entries, the mistakes filter,
  the pool drawn from a shuffled bank, the percentage, and `Progress`, the
  relation every session keeps between pool, requested count, position,
  score and log (`|log| == index`, `score` is the number of correct entries,
  `0 <= score <= index <= |pool| <= numQuestions`, entry `i` records
  question `i` of the pool).
- `Quiz` (`quiz_session.dfy`): class `QuizSession`, whose fields are the
  stored session values (`started` stands for "a question set is stored").
  `Valid()` is "cleared, or in `Progress`"; `Configure`, `Submit`,
  `PressButton` and `Restart` change the fields and keep `Valid()`;
  `Report` and `CollectMistakes` read them.
- `QuizScenarios` (`quiz_scenarios.dfy`): whole attempts driven through the
  methods' contracts alone: one wrong answer, a bank shorter than the
  requested count, the score reported against the requested count, a
  submission after completion, an unavailable bank, idempotent
  reconfiguration and restart.

Inputs the page gets from outside are parameters: the loader's outcome for
the chosen tier (`LoadOutcome`), the order the shuffle produced (any
permutation of the loaded bank, stated as multiset equality), the chosen
difficulty and count, and the submitted answer or pressed button.

Three behaviours of the code are worth stating plainly. The requested
count is any natural number (the slider offers 5 to 50, and a count of 0
gives an empty pool and the "no questions" line instead of a percentage). A
submission while no question is shown cannot happen, because no buttons are
drawn then; the model makes `Submit` refuse it with no effect. The score and
the percentage are reported against the requested count even when a short
bank made the pool smaller.

## Model

| member | source | states |
|---|---|---|
| `QuestionSource.BankFilesDistinct` | app.py:66-70 | each difficulty tier has its own bank file |
| `QuizLog.CountCorrect` | app.py:110-111 | the number of correct entries never exceeds the number of entries |
| `QuizLog.CountCorrectAppend` | app.py:104-112 | appending an entry raises the count by one if and only if that entry is correct |
| `QuizLog.Mistakes` | app.py:148-149 | every listed mistake is a log entry whose selected answer differs from the correct one; no more mistakes than entries |
| `QuizLog.MistakesAppend` | app.py:148-155 | the mistakes are the in-order filter: a new wrong entry is appended at the end, a right one adds nothing |
| `QuizLog.MistakesMembership` | app.py:148-149 | an entry is listed as a mistake if and only if it is in the log and wrong |
| `QuizLog.MistakesComplementScore` | app.py:110-149 | every entry is counted in the score or listed as a mistake, never both |
| `QuizLog.ProgressBounds` | app.py:81-87 | a session in progress has 0 <= score <= index <= pool size <= requested count |
| `QuizLog.SubmitKeepsProgress` | app.py:104-112 | answering the current question (position one further, score up for a correct answer, the entry appended) keeps the log length equal to the position, the score equal to the correct entries and the log aligned with the pool |
| `QuizLog.SelectPool` | app.py:78 | the pool is the prefix of the shuffled bank of length min(requested count, bank size); it repeats no question more often than the shuffled bank and holds only its questions |
| `QuizLog.PoolDrawnFromBank` | app.py:77-78 | for any permutation of the bank, the pool has min(requested count, bank size) questions, repeats no question more often than the bank does, and holds only bank questions |
| `QuizLog.FreshPoolProgress` | app.py:78-83 | a freshly drawn pool with zero position, zero score and an empty log satisfies the session relation |
| `QuizLog.Percentage` | app.py:137-144 | a percentage exists if and only if the requested count is positive; it is 100 times score over requested count, and lies in 0..100 when the score does not exceed the count |
| `Quiz.AnswerButtons` | app.py:115-129 | as written: the buttons drawn are the first min(options, 4) options, and drawing raises an IndexError if and only if the question has fewer than three options |
| `Quiz.AnswerButtonsGuarded` | app.py:115-129 | with the third button guarded like the fourth: the same buttons are drawn, and drawing raises only for a question with fewer than two options |
| `Quiz.GuardRemovesOnlyTheError` | app.py:124-128 | the guard draws exactly the buttons the code draws and removes the error exactly for two-option questions |
| `Quiz.TwoOptionQuestionBreaksButtons` | app.py:124 | a two-option question draws both buttons and then raises as written; guarded, it draws both buttons without an error |
| `Quiz.QuizSession.IsComplete` | app.py:87 | in a valid session the summary is shown exactly when a session is stored and the position equals the pool size |
| `Quiz.QuizSession.constructor` | app.py:72 | a new page session stores nothing |
| `Quiz.QuizSession.Configure` | app.py:72-83 | for the bank file of the chosen tier: same configuration while a session is stored: nothing changes (Kept); rebuild due and empty bank: nothing changes (NoQuestions); rebuild due and non-empty bank: pool is the first min(n, bank) shuffled questions, configuration stored, counters and log zeroed (Rebuilt); the session invariant is kept |
| `Quiz.QuizSession.Submit` | app.py:104-112 | while a question is shown: exactly the entry {current question text, selected answer, current correct answer} is appended, the position rises by one, the score by one if and only if the answer equals the correct one, pool and configuration unchanged; otherwise nothing changes |
| `Quiz.QuizSession.PressButton` | app.py:115-129 | while a question is shown, button `i` exists if and only if `i < min(options, 4)`, and pressing it submits option `i` of the current question (also on a question whose row of buttons raised, since the press is handled before the failing line); otherwise nothing changes |
| `Quiz.QuizSession.Report` | app.py:132-149 | the summary reports the stored score out of the requested count, with the guarded percentage; score plus number of mistakes equals the pool size, and score is at most the requested count |
| `Quiz.QuizSession.CollectMistakes` | app.py:148-155 | the loop over the log shows exactly the mistakes filter of the log, in order |
| `Quiz.QuizSession.Restart` | app.py:161-164 | every stored value is cleared, so the next configuration always rebuilds |
| `QuizScenarios.OneWrongAnswer` | app.py:72-155 | one question, count 1, wrong option: score 0 of 1, 0 percent, the one entry listed as a mistake |
| `QuizScenarios.ShortBankTruncates` | app.py:77-78 | a three-question bank with five requested is rebuilt into a pool of exactly the three shuffled questions |
| `QuizScenarios.ShortBankScoresAgainstRequest` | app.py:133-140 | a one-question bank with five requested, answered correctly, reports 1 out of 5, 20 percent, no mistakes |
| `QuizScenarios.SubmitAfterCompletion` | app.py:87-112 | after the last question a further submission is refused and the position and log stay as they were |
| `QuizScenarios.UnavailableBankKeepsSession` | app.py:9-14 | when a rebuild is due and the tier's bank file is missing, is not valid JSON or holds no questions, the stored session is left exactly as it was and no questions are reported |
| `QuizScenarios.ReconfigureSameKeepsProgress` | app.py:72 | configuring again with the stored difficulty and count keeps pool, position, score and log |
| `QuizScenarios.RestartThenSameConfiguration` | app.py:161-164 | after a restart the same configuration draws a new pool and zeroes position, score and log |

## Left out

- Rendering: styles, titles, tabs, columns, the progress line, the question text, the sidebar widgets and the messages are presentation, not state.
- Reading the bank file and parsing JSON are input/output; the loader's outcome is a parameter. A file that parses to something other than a list of question records is not modelled, and neither are read errors the loader does not catch (it catches only a missing file and malformed JSON, so an unreadable file or one that is not valid text raises out of the configuration step and ends that page run with the session untouched).
- The randomness of the shuffle: only that it permutes the bank is modelled; uniformity cannot be stated here.
- Re-running the whole page after each answer: each method is one step of that cycle; the bank is read only when a rebuild is due, as in the code.
- Restart deletes every key of the session-state dictionary in a loop; with the dictionary made a class, the model assigns every field its initial value instead.
- Percentage: exact rational arithmetic stands for the floating-point division, so rounding and the two-decimal formatting are not modelled.
- Negative requested counts (which the slider never produces, and for which a Python slice drops questions from the end) are excluded by the type `nat`.
- Submitting while no question is shown cannot happen in the code; `Submit` and `PressButton` make it a refused call with no effect.
- AnswerButtons: an IndexError while drawing the buttons is recorded as `raised`, beside the buttons already drawn; what the page shows for the error, and that the rest of that page run is skipped, is not modelled.
- PressButton: a question with a single option draws its one button and then raises at line 120 both as written and guarded; its one button can still be pressed, and the model allows exactly that.

## Findings

| source | as written | input that shows it | evidently intended | confidence | as-written member | corrected member |
|---|---|---|---|---|---|---|
| app.py:124 | the third answer button reads `options[2]` with no length test, while line 128 guards the fourth with `len(options) > 3`, so option lists of varying length are expected | a question with the two options `["Yes", "No"]` shows its text and its first two buttons, then raises IndexError at line 124; pressing either button still works, because the press is handled and the page re-run before line 124 is reached | guard the third button like the fourth, so a two-option question draws both buttons without an error | medium, not executed | `Quiz.AnswerButtons` (with `Quiz.TwoOptionQuestionBreaksButtons`) | `Quiz.AnswerButtonsGuarded` (with `Quiz.GuardRemovesOnlyTheError`) |
