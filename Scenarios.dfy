/** Sequences of clicks run through the session's methods, as written and as
    corrected: what the Start button does to a session that is already in
    use, and what clicking an option whose text contains a character
    reference records. */
module Scenarios {
  import opened Wrappers
  import opened StudyData
  import opened Shuffle
  import opened CardQuiz
  import opened Display
  import opened Sessions
  import opened Escaping

  /** A quiz answered wrongly, then a new quiz started: as written, the
      selection survives, so the new first question shows "Wrong" before any
      click and stays locked against the right answer. */
  method StaleQuizLockAfterStart() returns (shown: Screen)
    ensures shown.QuizView? && shown.prompt == "R"
    ensures shown.styles == [Plain, Plain] && shown.verdict == WrongVerdict
  {
    var s := new Session();
    var q1 := QuizQuestion("Q", ["X", "Y"], "Y", None);
    s.Start("hrmt", "5", QuizMode, Success([q1]), [], []);
    s.QuizSelect("X");
    assert s.lastSelection == Some("X");

    var q2 := QuizQuestion("R", ["A", "B"], "A", None);
    s.Start("hrmt", "6", QuizMode, Success([q2]), [], []);
    assert s.screen.prompt == "R" && s.screen.verdict == WrongVerdict;
    s.QuizSelect("A");
    assert s.lastSelection == Some("X");
    shown := s.screen;
  }

  /** The same clicks with the corrected start: the new first question is
      unanswered and the right answer is accepted. */
  method FreshQuizAfterRestart() returns (shown: Screen)
    ensures shown.QuizView? && shown.prompt == "R"
    ensures shown.styles == [Correct, Plain] && shown.verdict == RightVerdict
  {
    var s := new Session();
    var q1 := QuizQuestion("Q", ["X", "Y"], "Y", None);
    s.Restart("hrmt", "5", QuizMode, Success([q1]), [], []);
    s.QuizSelect("X");

    var q2 := QuizQuestion("R", ["A", "B"], "A", None);
    s.Restart("hrmt", "6", QuizMode, Success([q2]), [], []);
    assert s.screen.verdict == NoVerdict;
    s.QuizSelect("A");
    assert s.lastSelection == Some("A");
    shown := s.screen;
  }

  lemma TwoCardOptions(front1: string, back1: string, front2: string, back2: string)
    requires back1 != back2
    ensures Backs([Flashcard(front1, back1), Flashcard(front2, back2)]) == [back1, back2]
    ensures DrawsFit([back1, back2], back1, [], [0])
    ensures forall x :: x in GenerateOptions([back1, back2], back1, [], [0]) ==> x == back1 || x == back2
    ensures back1 in GenerateOptions([back1, back2], back1, [], [0])
  {
    var backs := [back1, back2];
    assert backs[1..] == [back2];
    assert WrongPool(backs, back1) == [back2] by {
      assert WrongPool(backs[1..], back1) == [back2] + WrongPool([], back1);
    }
    GeneratedOptionsShape(backs, back1, [], [0]);
    assert multiset(GenerateOptions(backs, back1, [], [0]))[back1] == 1;
  }

  /** A flashcard quiz at index 0, then a new flashcard quiz started: as
      written, the options cached for index 0 of the old deck are kept, so
      the new first card is offered the old deck's backs and its own back is
      not among them. */
  method StaleCardQuizOptionsAfterStart() returns (shown: Screen)
    ensures shown.CardQuizView? && shown.prompt == "c" && "3" !in shown.options
    ensures "1" in shown.options && forall x :: x in shown.options ==> x == "1" || x == "2"
  {
    var s := new Session();
    var deck1 := [Flashcard("a", "1"), Flashcard("b", "2")];
    TwoCardOptions("a", "1", "b", "2");
    s.Start("hrmt", "5", CardQuizMode, Success(deck1), [], [0]);

    var deck2 := [Flashcard("c", "3"), Flashcard("d", "4")];
    s.Start("hrmt", "6", CardQuizMode, Success(deck2), [], [0]);
    assert s.fcqOptionsCache.value.correct == "1";
    shown := s.screen;
  }

  /** The corrected start on a two-card flashcard-quiz deck whose backs
      differ: the first card is shown with its own back among the options. */
  method RestartOnTwoCards(s: Session, front1: string, back1: string, front2: string, back2: string)
    requires s.Valid() && back1 != back2
    modifies s
    ensures s.Valid() && s.screen.CardQuizView?
    ensures s.screen.prompt == front1 && back1 in s.screen.options
  {
    var deck := [Flashcard(front1, back1), Flashcard(front2, back2)];
    TwoCardOptions(front1, back1, front2, back2);
    s.Restart("hrmt", "5", CardQuizMode, Success(deck), [], [0]);
  }

  /** The same with the corrected start: the options are generated for the
      new first card and include its back. */
  method FreshCardQuizOptionsAfterRestart() returns (shown: Screen)
    ensures shown.CardQuizView? && shown.prompt == "c" && "3" in shown.options
  {
    var s := new Session();
    RestartOnTwoCards(s, "a", "1", "b", "2");
    RestartOnTwoCards(s, "c", "3", "d", "4");
    shown := s.screen;
  }

  /** A quiz whose right answer is the literal text `&lt;`. Its button's
      `data-opt` attribute, written with `escapeAttr`, reads back as `<`, so
      clicking the right answer records `<`: no option is styled and the
      verdict is "Wrong". */
  method AmpersandOptionClick() returns (shown: Screen)
    ensures shown.QuizView? && shown.styles == [Plain, Plain] && shown.verdict == WrongVerdict
  {
    var s := new Session();
    var q := QuizQuestion("Which entity encodes <?", ["&lt;", "&gt;"], "&lt;", None);
    s.Start("hrmt", "5", QuizMode, Success([q]), [], []);
    EscapeAttrAmpersandClash();
    var readBack := DecodeEntities(EscapeAttr(Some("&lt;")));
    s.QuizSelect(readBack);
    AmpersandQuizViews(q);
    shown := s.screen;
  }

  /** The same click when the attribute is written with the corrected
      escape: the value read back is the option text, and the right answer is
      recognised. */
  method AmpersandOptionClickFixed() returns (shown: Screen)
    ensures shown.QuizView? && shown.styles == [Correct, Plain] && shown.verdict == RightVerdict
  {
    var s := new Session();
    var q := QuizQuestion("Which entity encodes <?", ["&lt;", "&gt;"], "&lt;", None);
    s.Start("hrmt", "5", QuizMode, Success([q]), [], []);
    EscapeAttrFixedRoundTrip("&lt;");
    var readBack := DecodeEntities(EscapeAttrFixed(Some("&lt;")));
    s.QuizSelect(readBack);
    AmpersandQuizViews(q);
    shown := s.screen;
  }

  /** The views of the ampersand question after the two selections above. */
  lemma AmpersandQuizViews(q: Record)
    requires q == QuizQuestion("Which entity encodes <?", ["&lt;", "&gt;"], "&lt;", None)
    ensures QuizScreen(q, Some("<"), false, 0, 1).styles == [Plain, Plain]
    ensures QuizScreen(q, Some("<"), false, 0, 1).verdict == WrongVerdict
    ensures QuizScreen(q, Some("&lt;"), false, 0, 1).styles == [Correct, Plain]
    ensures QuizScreen(q, Some("&lt;"), false, 0, 1).verdict == RightVerdict
  {
    assert StyleOf("&lt;", Some("<"), "&lt;") == Plain && StyleOf("&gt;", Some("<"), "&lt;") == Plain;
  }
}
