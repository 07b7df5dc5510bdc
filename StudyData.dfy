/** The records a study session works on and the names of its three modes. */
module StudyData {
  import opened Wrappers

  /** The value of the mode selector. */
  const FlashcardsMode: string := "flashcards"
  const QuizMode: string := "quiz"
  const CardQuizMode: string := "flashcardQuiz"

  predicate KnownMode(mode: string)
  {
    mode == FlashcardsMode || mode == QuizMode || mode == CardQuizMode
  }

  /** One entry of a loaded data file: a flashcard from a flashcards file or a
      question from a quiz file. */
  datatype Record =
    | Flashcard(front: string, back: string)
    | QuizQuestion(question: string, options: seq<string>, correctAnswer: string, explanation: Option<string>)

  predicate AllCards(records: seq<Record>)
  {
    forall k :: 0 <= k < |records| ==> records[k].Flashcard?
  }

  predicate AllQuestions(records: seq<Record>)
  {
    forall k :: 0 <= k < |records| ==> records[k].QuizQuestion?
  }

  /** The file read for a mode holds records of that mode's kind: the
      flashcard modes read flashcards, the quiz mode reads questions. */
  predicate FitsMode(mode: string, records: seq<Record>)
  {
    (mode == FlashcardsMode || mode == CardQuizMode ==> AllCards(records)) &&
    (mode == QuizMode ==> AllQuestions(records))
  }
}
