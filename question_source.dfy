/** The question bank: records, difficulty tiers and the loader that degrades
    every failure to an empty bank. Opening the file and parsing JSON are not
    modelled; the loader's result is an input (LoadOutcome). */
module QuestionSource {

  /** The three tiers offered by the difficulty selector. */
  datatype Difficulty = Beginner | Intermediate | Advanced

  /** One multiple-choice question as stored in a bank file. */
  datatype Question = Question(question: string, options: seq<string>, correctAnswer: string)

  /** What reading and parsing the bank file `file` produced. */
  datatype LoadOutcome =
    | Loaded(file: string, questions: seq<Question>)
    | FileNotFound(file: string)
    | InvalidJson(file: string)

  /** The fixed table from tier to bank file. */
  function BankFile(d: Difficulty): string
  {
    match d
    case Beginner => "beginner_questions.json"
    case Intermediate => "intermediate_questions.json"
    case Advanced => "advanced_questions.json"
  }

  /** Each tier is backed by its own file. */
  lemma BankFilesDistinct(d1: Difficulty, d2: Difficulty)
    ensures BankFile(d1) == BankFile(d2) <==> d1 == d2
  {
  }

  /** The loader: a missing file and malformed JSON both yield the empty bank
      (after an error message, which is not modelled); a parsed file yields its
      records unshuffled and unfiltered. */
  function LoadQuestions(outcome: LoadOutcome): seq<Question>
  {
    match outcome
    case Loaded(_, qs) => qs
    case FileNotFound(_) => []
    case InvalidJson(_) => []
  }
}
