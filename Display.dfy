/** What the study area shows: the projection of the session state onto the
    three views, with the per-option classification and the verdict line. */
module Display {
  import opened Wrappers
  import opened StudyData
  import opened CardQuiz

  /** JavaScript truthiness of a selection: `null` and `""` are both false. */
  predicate Truthy(selection: Option<string>)
  {
    selection.Some? && selection.value != ""
  }

  /** The extra class of an option button. */
  datatype OptionStyle = Plain | Correct | Wrong

  /** The feedback row: empty, "Correct" or "Wrong". */
  datatype Verdict = NoVerdict | RightVerdict | WrongVerdict

  /** The class an option gets: only an option equal to a (truthy) selection
      is styled, as correct if it also equals the answer. */
  function StyleOf(opt: string, selection: Option<string>, correct: string): (style: OptionStyle)
    ensures style != Plain <==> Truthy(selection) && opt == selection.value
    ensures style == Correct <==> Truthy(selection) && opt == selection.value && opt == correct
  {
    if Truthy(selection) && opt == selection.value then
      (if opt == correct then Correct else Wrong)
    else Plain
  }

  /** The classes of all option buttons, in order. */
  function Styles(options: seq<string>, selection: Option<string>, correct: string): seq<OptionStyle>
  {
    seq(|options|, k requires 0 <= k < |options| => StyleOf(options[k], selection, correct))
  }

  /** `isCorrect = selection && selection === correct` and the feedback row
      built from it: empty until a truthy pick, then "Correct" exactly for the
      answer. */
  function VerdictOf(selection: Option<string>, correct: string): (v: Verdict)
    ensures v == NoVerdict <==> !Truthy(selection)
    ensures v == RightVerdict <==> Truthy(selection) && selection.value == correct
  {
    if !Truthy(selection) then NoVerdict
    else if selection.value == correct then RightVerdict
    else WrongVerdict
  }

  const DefaultExplanation: string := "No explanation provided."

  /** `q.explanation || "No explanation provided."`: a missing or empty
      explanation is replaced by the default text, so the text shown is never
      empty. */
  function ExplanationText(explanation: Option<string>): (text: string)
    ensures text != ""
    ensures Truthy(explanation) ==> text == explanation.value
    ensures !Truthy(explanation) ==> text == DefaultExplanation
  {
    match explanation
    case Some(e) => if e != "" then e else DefaultExplanation
    case None => DefaultExplanation
  }

  /** The content of the study area. */
  datatype Screen =
    | Blank
    | NoData
    | LoadError(message: string)
    | CardView(showingBack: bool, text: string, position: nat, total: nat)
    | QuizView(prompt: string, options: seq<string>, styles: seq<OptionStyle>, verdict: Verdict,
               explanation: Option<string>, position: nat, total: nat)
    | CardQuizView(prompt: string, options: seq<string>, styles: seq<OptionStyle>, verdict: Verdict,
                   answerShown: bool, position: nat, total: nat)

  /** The flashcard view of card number `index`: the back when flipped,
      else the front, and the position counted from 1. */
  function CardScreen(card: Record, showingBack: bool, index: nat, total: nat): (view: Screen)
    requires card.Flashcard?
    ensures view.CardView? && view.showingBack == showingBack && view.position == index + 1 && view.total == total
    ensures view.text == (if showingBack then card.back else card.front)
  {
    CardView(showingBack, if showingBack then card.back else card.front, index + 1, total)
  }

  /** The quiz view of question number `index`: the question's own options
      in file order, one class each, the verdict on the selection, and the
      explanation (or its default) exactly when it is toggled on. */
  function QuizScreen(q: Record, selection: Option<string>, showExplanation: bool, index: nat, total: nat): (view: Screen)
    requires q.QuizQuestion?
    ensures view.QuizView? && view.prompt == q.question && view.options == q.options
    ensures |view.styles| == |view.options| &&
            forall k :: 0 <= k < |view.options| ==> view.styles[k] == StyleOf(view.options[k], selection, q.correctAnswer)
    ensures view.verdict == VerdictOf(selection, q.correctAnswer)
    ensures view.explanation.Some? <==> showExplanation
    ensures showExplanation ==> view.explanation.value == ExplanationText(q.explanation)
    ensures view.position == index + 1 && view.total == total
  {
    QuizView(q.question, q.options, Styles(q.options, selection, q.correctAnswer),
             VerdictOf(selection, q.correctAnswer),
             if showExplanation then Some(ExplanationText(q.explanation)) else None,
             index + 1, total)
  }

  /** The flashcard-quiz view of card number `index`: the card's front
      with the cached options, one class each judged against the cached
      correct back; the answer box starts hidden. */
  function CardQuizScreen(card: Record, cache: OptionsCache, selection: Option<string>, index: nat, total: nat): (view: Screen)
    requires card.Flashcard?
    ensures view.CardQuizView? && view.prompt == card.front && view.options == cache.options
    ensures |view.styles| == |view.options| &&
            forall k :: 0 <= k < |view.options| ==> view.styles[k] == StyleOf(view.options[k], selection, cache.correct)
    ensures view.verdict == VerdictOf(selection, cache.correct) && !view.answerShown
    ensures view.position == index + 1 && view.total == total
  {
    CardQuizView(card.front, cache.options, Styles(cache.options, selection, cache.correct),
                 VerdictOf(selection, cache.correct), false, index + 1, total)
  }

  /** An option is styled exactly when it equals a truthy selection, and
      styled as correct exactly when it also equals the answer. */
  lemma StylesClassify(options: seq<string>, selection: Option<string>, correct: string)
    ensures |Styles(options, selection, correct)| == |options|
    ensures forall k :: 0 <= k < |options| ==>
              (Styles(options, selection, correct)[k] != Plain <==> Truthy(selection) && options[k] == selection.value)
    ensures forall k :: 0 <= k < |options| ==>
              (Styles(options, selection, correct)[k] == Correct <==>
                 Truthy(selection) && options[k] == selection.value && options[k] == correct)
  {
  }

  /** Without a truthy selection nothing is styled and there is no verdict. */
  lemma NoSelectionNoStyles(options: seq<string>, selection: Option<string>, correct: string)
    requires !Truthy(selection)
    ensures forall k :: 0 <= k < |options| ==> Styles(options, selection, correct)[k] == Plain
    ensures VerdictOf(selection, correct) == NoVerdict
  {
  }

  /** Options with the same text get the same class, so duplicates of the
      selected text are all styled. */
  lemma DuplicatesStyledAlike(options: seq<string>, selection: Option<string>, correct: string, i: nat, j: nat)
    requires i < |options| && j < |options| && options[i] == options[j]
    ensures Styles(options, selection, correct)[i] == Styles(options, selection, correct)[j]
  {
  }

  /** When the selection is one of the options, the verdict says "Correct"
      exactly when some option is styled as correct, and "Wrong" exactly when
      the selected options are styled as wrong. */
  lemma VerdictAgreesWithStyles(options: seq<string>, selection: Option<string>, correct: string, k: nat)
    requires Truthy(selection) && k < |options| && options[k] == selection.value
    ensures VerdictOf(selection, correct) == RightVerdict <==> Styles(options, selection, correct)[k] == Correct
    ensures VerdictOf(selection, correct) == WrongVerdict <==> Styles(options, selection, correct)[k] == Wrong
    ensures VerdictOf(selection, correct) == RightVerdict <==>
              exists m :: 0 <= m < |options| && Styles(options, selection, correct)[m] == Correct
  {
  }

  /** Question "Q" with options "X" and "Y", answer "Y": selecting "X" marks
      "X" wrong, leaves "Y" unmarked and gives the verdict "Wrong". */
  lemma QuizScenario()
    ensures Styles(["X", "Y"], Some("X"), "Y") == [Wrong, Plain]
    ensures VerdictOf(Some("X"), "Y") == WrongVerdict
  {
  }
}
