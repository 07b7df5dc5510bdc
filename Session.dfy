/** The session state of the study tool and its click handlers. The
    module-level variables of the page become the fields of one `Session`;
    each handler becomes a method that updates them and re-renders. */
module Sessions {
  import opened Wrappers
  import opened StudyData
  import opened Loader
  import opened Shuffle
  import opened CardQuiz
  import opened Display

  /** Navigation one step forward, `(currentIndex + 1) % currentData.length`:
      it stays in range and moves one place forward, from the last record to
      the first. */
  function NextIndex(i: nat, n: nat): (next: nat)
    requires i < n
    ensures next < n
    ensures next == if i == n - 1 then 0 else i + 1
  {
    if i == n - 1 then assert i + 1 == n; (i + 1) % n else (i + 1) % n
  }

  /** Navigation one step back, `(currentIndex - 1 + currentData.length) %
      currentData.length`: it stays in range and moves one place back, from
      the first record to the last. Both operands are non-negative, so
      JavaScript's `%` and Dafny's agree. */
  function PrevIndex(i: nat, n: nat): (prev: nat)
    requires i < n
    ensures prev < n
    ensures prev == if i == 0 then n - 1 else i - 1
  {
    if i > 0 then ModShift(i - 1, n); (i - 1 + n) % n else (i - 1 + n) % n
  }

  lemma ModShift(x: int, n: int)
    requires 0 <= x < n
    ensures (x + n) % n == x
  {
  }

  /** Prev undoes Next and Next undoes Prev. */
  lemma NavigationInverse(i: nat, n: nat)
    requires i < n
    ensures NextIndex(i, n) < n && PrevIndex(i, n) < n
    ensures PrevIndex(NextIndex(i, n), n) == i && NextIndex(PrevIndex(i, n), n) == i
  {
  }

  /** Every variable of a session except what the study area shows. */
  datatype SessionState = SessionState(
    data: seq<Record>,
    currentIndex: nat,
    currentMode: string,
    showingBack: bool,
    lastSelection: Option<string>,
    showExplanation: bool,
    fcqSelection: Option<string>,
    fcqOptionsCache: Option<OptionsCache>)

  class Session {
    var data: seq<Record>
    var currentIndex: nat
    var currentMode: string
    /** Flashcard mode: whether the card is flipped. */
    var showingBack: bool
    /** Quiz mode: the option picked, `null` before any pick. */
    var lastSelection: Option<string>
    var showExplanation: bool
    /** Flashcard-quiz mode: the option picked and the generated options. */
    var fcqSelection: Option<string>
    var fcqOptionsCache: Option<OptionsCache>
    /** What the study area shows; its buttons are the handlers that can
        be invoked next. */
    var screen: Screen

    ghost function State(): SessionState
      reads this
    {
      SessionState(data, currentIndex, currentMode, showingBack, lastSelection,
                   showExplanation, fcqSelection, fcqOptionsCache)
    }

    /** A view is on screen only for a record that exists and has the view's
        kind, and it shows that record as the state says. */
    ghost predicate Valid()
      reads this
    {
      (screen.CardView? ==>
         AllCards(data) && currentIndex < |data| &&
         screen == CardScreen(data[currentIndex], showingBack, currentIndex, |data|)) &&
      (screen.QuizView? ==>
         AllQuestions(data) && currentIndex < |data| &&
         screen == QuizScreen(data[currentIndex], lastSelection, showExplanation, currentIndex, |data|)) &&
      (screen.CardQuizView? ==>
         AllCards(data) && currentIndex < |data| &&
         fcqOptionsCache.Some? && fcqOptionsCache.value.index == currentIndex &&
         screen.(answerShown := false) ==
           CardQuizScreen(data[currentIndex], fcqOptionsCache.value, fcqSelection, currentIndex, |data|))
    }

    /** The page as loaded: no data, the first index, flashcard mode, every
        flag cleared and an empty study area. */
    constructor ()
      ensures Valid()
      ensures State() == SessionState([], 0, FlashcardsMode, false, None, false, None, None)
      ensures screen == Blank
    {
      data, currentIndex, currentMode := [], 0, FlashcardsMode;
      showingBack, lastSelection, showExplanation := false, None, false;
      fcqSelection, fcqOptionsCache := None, None;
      screen := Blank;
    }

    /** Whether rendering the flashcard-quiz view generates new options: no
        options yet, or options for another index. */
    ghost predicate RebuildDue()
      reads this
    {
      fcqOptionsCache.None? || fcqOptionsCache.value.index != currentIndex
    }

    // ------------------------------------------------------------------
    // Rendering

    method RenderFlashcard()
      requires AllCards(data) && currentIndex < |data|
      modifies this`screen
      ensures screen == CardScreen(data[currentIndex], showingBack, currentIndex, |data|)
    {
      screen := CardScreen(data[currentIndex], showingBack, currentIndex, |data|);
    }

    method RenderQuiz()
      requires AllQuestions(data) && currentIndex < |data|
      modifies this`screen
      ensures screen == QuizScreen(data[currentIndex], lastSelection, showExplanation, currentIndex, |data|)
    {
      screen := QuizScreen(data[currentIndex], lastSelection, showExplanation, currentIndex, |data|);
    }

    /** The cache miss inside `renderCardQuiz`: fresh options for the current
        card, and the selection cleared with them. */
    method RebuildOptions(poolDraws: seq<nat>, optionDraws: seq<nat>)
      requires AllCards(data) && currentIndex < |data|
      requires DrawsFit(Backs(data), data[currentIndex].back, poolDraws, optionDraws)
      modifies this`fcqOptionsCache, this`fcqSelection
      ensures data == old(data) && currentIndex == old(currentIndex) && currentMode == old(currentMode)
      ensures showingBack == old(showingBack) && lastSelection == old(lastSelection) &&
              showExplanation == old(showExplanation) && screen == old(screen)
      ensures fcqOptionsCache == Some(OptionsCache(currentIndex,
                GenerateOptions(Backs(data), data[currentIndex].back, poolDraws, optionDraws),
                data[currentIndex].back))
      ensures fcqSelection == None
    {
      var cache := BuildOptions(data, currentIndex, poolDraws, optionDraws);
      fcqOptionsCache := Some(cache);
      fcqSelection := None;
    }

    /** Generates options only when none are cached for the current index;
        a rebuild also clears the selection. The answer box starts hidden. */
    method RenderCardQuiz(poolDraws: seq<nat>, optionDraws: seq<nat>)
      requires AllCards(data) && currentIndex < |data|
      requires RebuildDue() ==> DrawsFit(Backs(data), data[currentIndex].back, poolDraws, optionDraws)
      modifies this`screen, this`fcqOptionsCache, this`fcqSelection
      ensures data == old(data) && currentIndex == old(currentIndex) && currentMode == old(currentMode)
      ensures showingBack == old(showingBack) && lastSelection == old(lastSelection) &&
              showExplanation == old(showExplanation)
      ensures old(RebuildDue()) ==>
                fcqOptionsCache == Some(OptionsCache(currentIndex,
                  GenerateOptions(Backs(data), data[currentIndex].back, poolDraws, optionDraws),
                  data[currentIndex].back)) &&
                fcqSelection == None
      ensures !old(RebuildDue()) ==>
                fcqOptionsCache == old(fcqOptionsCache) && fcqSelection == old(fcqSelection)
      ensures fcqOptionsCache.Some? && fcqOptionsCache.value.index == currentIndex
      ensures screen == CardQuizScreen(data[currentIndex], fcqOptionsCache.value, fcqSelection, currentIndex, |data|)
    {
      if fcqOptionsCache.None? || fcqOptionsCache.value.index != currentIndex {
        RebuildOptions(poolDraws, optionDraws);
      }
      screen := CardQuizScreen(data[currentIndex], fcqOptionsCache.value, fcqSelection, currentIndex, |data|);
    }

    /** `renderCurrent`: the no-data placeholder for an empty file, else the
        view of the current mode; an unknown mode leaves the screen as it is. */
    method RenderCurrent(poolDraws: seq<nat>, optionDraws: seq<nat>)
      requires FitsMode(currentMode, data) && currentIndex < |data| + 1
      requires data != [] ==> currentIndex < |data|
      requires currentMode == CardQuizMode && data != [] && RebuildDue() ==>
                 DrawsFit(Backs(data), data[currentIndex].back, poolDraws, optionDraws)
      modifies this`screen, this`fcqOptionsCache, this`fcqSelection
      ensures State() == old(State()).(fcqSelection := fcqSelection, fcqOptionsCache := fcqOptionsCache)
      ensures data == [] ==> screen == NoData && fcqOptionsCache == old(fcqOptionsCache) && fcqSelection == old(fcqSelection)
      ensures data != [] && currentMode == FlashcardsMode ==>
                screen == CardScreen(data[currentIndex], showingBack, currentIndex, |data|)
      ensures data != [] && currentMode == QuizMode ==>
                screen == QuizScreen(data[currentIndex], lastSelection, showExplanation, currentIndex, |data|)
      ensures data != [] && currentMode == CardQuizMode ==>
                (old(RebuildDue()) ==>
                   fcqOptionsCache == Some(OptionsCache(currentIndex,
                     GenerateOptions(Backs(data), data[currentIndex].back, poolDraws, optionDraws),
                     data[currentIndex].back)) &&
                   fcqSelection == None) &&
                (!old(RebuildDue()) ==>
                   fcqOptionsCache == old(fcqOptionsCache) && fcqSelection == old(fcqSelection)) &&
                fcqOptionsCache.Some? && fcqOptionsCache.value.index == currentIndex &&
                screen == CardQuizScreen(data[currentIndex], fcqOptionsCache.value, fcqSelection, currentIndex, |data|)
      ensures currentMode != CardQuizMode ==>
                fcqOptionsCache == old(fcqOptionsCache) && fcqSelection == old(fcqSelection)
      ensures data != [] && !KnownMode(currentMode) ==> screen == old(screen)
    {
      if |data| == 0 {
        screen := NoData;
        return;
      }
      if currentMode == FlashcardsMode {
        RenderFlashcard();
      } else if currentMode == QuizMode {
        RenderQuiz();
      } else if currentMode == CardQuizMode {
        RenderCardQuiz(poolDraws, optionDraws);
      }
    }

    // ------------------------------------------------------------------
    // Start

    /** Whether Start, as written, generates options: a non-empty
        flashcard-quiz deck while no options are cached for index 0. */
    ghost predicate StartRebuilds(mode: string, records: seq<Record>)
      reads this
    {
      mode == CardQuizMode && records != [] && (fcqOptionsCache.None? || fcqOptionsCache.value.index != 0)
    }

    /** The Start button, as written: the mode and the index are set before
        the load is awaited, so a failed load still changes both while the
        data stays; no flag of any mode is cleared, and a cache made for
        index 0 of the previous data is kept. */
    method Start(subject: string, chapterNum: string, mode: string, load: Result<seq<Record>, LoadFailure>,
                 poolDraws: seq<nat>, optionDraws: seq<nat>)
      requires Valid() && KnownMode(mode)
      requires load.Success? ==> FitsMode(mode, load.value)
      requires load.Success? && StartRebuilds(mode, load.value) ==>
                 DrawsFit(Backs(load.value), load.value[0].back, poolDraws, optionDraws)
      modifies this
      ensures Valid()
      ensures load.Failure? ==>
                State() == old(State()).(currentMode := mode, currentIndex := 0) &&
                screen == LoadError(FailureMessage(load.error, StudyPath(subject, chapterNum, mode)))
      ensures load.Success? && !old(StartRebuilds(mode, load.value)) ==>
                State() == old(State()).(data := load.value, currentMode := mode, currentIndex := 0)
      ensures load.Success? && old(StartRebuilds(mode, load.value)) ==>
                State() == old(State()).(data := load.value, currentMode := mode, currentIndex := 0,
                  fcqSelection := None,
                  fcqOptionsCache := Some(OptionsCache(0, GenerateOptions(Backs(load.value), load.value[0].back,
                                                                          poolDraws, optionDraws),
                                                       load.value[0].back)))
      ensures load.Success? && data == [] ==> screen == NoData
      ensures load.Success? && data != [] && mode == FlashcardsMode ==>
                screen == CardScreen(data[0], old(showingBack), 0, |data|)
      ensures load.Success? && data != [] && mode == QuizMode ==>
                screen == QuizScreen(data[0], old(lastSelection), old(showExplanation), 0, |data|)
      ensures load.Success? && data != [] && mode == CardQuizMode ==>
                fcqOptionsCache.Some? &&
                screen == CardQuizScreen(data[0], fcqOptionsCache.value, fcqSelection, 0, |data|)
    {
      currentMode := mode;
      currentIndex := 0;
      match load
      case Success(records) =>
        data := records;
        RenderCurrent(poolDraws, optionDraws);
      case Failure(failure) =>
        screen := LoadError(FailureMessage(failure, StudyPath(subject, chapterNum, mode)));
    }

    /** The Start button as evidently intended: a failed load leaves the
        session as it was, and a successful one installs the new data with
        every interaction flag of every mode cleared and, for a non-empty
        flashcard-quiz deck, options freshly generated for its first card. */
    method Restart(subject: string, chapterNum: string, mode: string, load: Result<seq<Record>, LoadFailure>,
                   poolDraws: seq<nat>, optionDraws: seq<nat>)
      requires Valid() && KnownMode(mode)
      requires load.Success? ==> FitsMode(mode, load.value)
      requires load.Success? && load.value != [] && mode == CardQuizMode ==>
                 DrawsFit(Backs(load.value), load.value[0].back, poolDraws, optionDraws)
      modifies this
      ensures Valid()
      ensures load.Failure? ==>
                State() == old(State()) &&
                screen == LoadError(FailureMessage(load.error, StudyPath(subject, chapterNum, mode)))
      ensures load.Success? ==>
                State() == SessionState(load.value, 0, mode, false, None, false, None,
                  if mode == CardQuizMode && load.value != [] then
                    Some(OptionsCache(0, GenerateOptions(Backs(load.value), load.value[0].back, poolDraws, optionDraws),
                                      load.value[0].back))
                  else None)
      ensures load.Success? && data == [] ==> screen == NoData
      ensures load.Success? && data != [] && mode == FlashcardsMode ==>
                screen == CardScreen(data[0], false, 0, |data|)
      ensures load.Success? && data != [] && mode == QuizMode ==>
                screen == QuizScreen(data[0], None, false, 0, |data|)
      ensures load.Success? && data != [] && mode == CardQuizMode ==>
                screen == CardQuizScreen(data[0], fcqOptionsCache.value, None, 0, |data|)
    {
      match load
      case Success(records) =>
        data, currentMode, currentIndex := records, mode, 0;
        showingBack, lastSelection, showExplanation := false, None, false;
        fcqSelection, fcqOptionsCache := None, None;
        RenderCurrent(poolDraws, optionDraws);
      case Failure(failure) =>
        screen := LoadError(FailureMessage(failure, StudyPath(subject, chapterNum, mode)));
    }

    // ------------------------------------------------------------------
    // Flashcard mode

    /** The flip button toggles the side shown and touches nothing else. */
    method Flip()
      requires Valid() && screen.CardView?
      modifies this
      ensures Valid() && screen.CardView?
      ensures State() == old(State()).(showingBack := !old(showingBack))
    {
      showingBack := !showingBack;
      RenderFlashcard();
    }

    /** Prev: one card back with wrap-around, front side up; the other
        modes' flags are untouched. */
    method FlashcardPrev()
      requires Valid() && screen.CardView?
      modifies this
      ensures Valid() && screen.CardView?
      ensures State() == old(State()).(currentIndex := PrevIndex(old(currentIndex), old(|data|)), showingBack := false)
    {
      currentIndex := (currentIndex - 1 + |data|) % |data|;
      showingBack := false;
      RenderFlashcard();
    }

    /** Next: one card forward with wrap-around, front side up. */
    method FlashcardNext()
      requires Valid() && screen.CardView?
      modifies this
      ensures Valid() && screen.CardView?
      ensures State() == old(State()).(currentIndex := NextIndex(old(currentIndex), old(|data|)), showingBack := false)
    {
      currentIndex := (currentIndex + 1) % |data|;
      showingBack := false;
      RenderFlashcard();
    }

    // ------------------------------------------------------------------
    // Quiz mode

    /** An option button, given the value of its `data-opt` attribute: the
        first truthy pick wins; once a non-empty selection is recorded,
        further clicks change nothing. An empty value is recorded but, being
        falsy, does not lock. */
    method QuizSelect(value: string)
      requires Valid() && screen.QuizView?
      modifies this
      ensures Valid() && screen.QuizView?
      ensures Truthy(old(lastSelection)) ==> State() == old(State()) && screen == old(screen)
      ensures !Truthy(old(lastSelection)) ==> State() == old(State()).(lastSelection := Some(value))
    {
      if !Truthy(lastSelection) {
        lastSelection := Some(value);
        RenderQuiz();
      }
    }

    /** The explanation button toggles the explanation and nothing else; in
        particular the selection and its lock are kept. */
    method ToggleExplanation()
      requires Valid() && screen.QuizView?
      modifies this
      ensures Valid() && screen.QuizView?
      ensures State() == old(State()).(showExplanation := !old(showExplanation))
    {
      showExplanation := !showExplanation;
      RenderQuiz();
    }

    /** Prev: one question back with wrap-around, unanswered, explanation
        hidden. */
    method QuizPrev()
      requires Valid() && screen.QuizView?
      modifies this
      ensures Valid() && screen.QuizView?
      ensures State() == old(State()).(currentIndex := PrevIndex(old(currentIndex), old(|data|)),
                                       lastSelection := None, showExplanation := false)
    {
      currentIndex := (currentIndex - 1 + |data|) % |data|;
      lastSelection := None;
      showExplanation := false;
      RenderQuiz();
    }

    /** Next: one question forward with wrap-around, unanswered,
        explanation hidden. */
    method QuizNext()
      requires Valid() && screen.QuizView?
      modifies this
      ensures Valid() && screen.QuizView?
      ensures State() == old(State()).(currentIndex := NextIndex(old(currentIndex), old(|data|)),
                                       lastSelection := None, showExplanation := false)
    {
      currentIndex := (currentIndex + 1) % |data|;
      lastSelection := None;
      showExplanation := false;
      RenderQuiz();
    }

    // ------------------------------------------------------------------
    // Flashcard-quiz mode

    /** An option button: the first truthy pick wins, and the re-render keeps
        the cached options, since they belong to the current index. */
    method CardQuizSelect(value: string)
      requires Valid() && screen.CardQuizView?
      modifies this
      ensures Valid() && screen.CardQuizView?
      ensures Truthy(old(fcqSelection)) ==> State() == old(State()) && screen == old(screen)
      ensures !Truthy(old(fcqSelection)) ==> State() == old(State()).(fcqSelection := Some(value)) && !screen.answerShown
    {
      if !Truthy(fcqSelection) {
        fcqSelection := Some(value);
        RenderCardQuiz([], []);
      }
    }

    /** Prev: one card back with wrap-around; the cache is dropped, so the
        re-render generates options for the new card and clears the pick. */
    method CardQuizPrev(poolDraws: seq<nat>, optionDraws: seq<nat>)
      requires Valid() && screen.CardQuizView?
      requires DrawsFit(Backs(data), data[PrevIndex(currentIndex, |data|)].back, poolDraws, optionDraws)
      modifies this
      ensures Valid() && screen.CardQuizView? && !screen.answerShown
      ensures currentIndex == PrevIndex(old(currentIndex), old(|data|))
      ensures State() == old(State()).(currentIndex := currentIndex, fcqSelection := None,
                                       fcqOptionsCache := fcqOptionsCache)
      ensures fcqOptionsCache == Some(OptionsCache(currentIndex,
                GenerateOptions(Backs(data), data[currentIndex].back, poolDraws, optionDraws), data[currentIndex].back))
    {
      currentIndex := (currentIndex - 1 + |data|) % |data|;
      fcqOptionsCache := None;
      RenderCardQuiz(poolDraws, optionDraws);
    }

    /** Next: one card forward with wrap-around and freshly generated
        options. */
    method CardQuizNext(poolDraws: seq<nat>, optionDraws: seq<nat>)
      requires Valid() && screen.CardQuizView?
      requires DrawsFit(Backs(data), data[NextIndex(currentIndex, |data|)].back, poolDraws, optionDraws)
      modifies this
      ensures Valid() && screen.CardQuizView? && !screen.answerShown
      ensures currentIndex == NextIndex(old(currentIndex), old(|data|))
      ensures State() == old(State()).(currentIndex := currentIndex, fcqSelection := None,
                                       fcqOptionsCache := fcqOptionsCache)
      ensures fcqOptionsCache == Some(OptionsCache(currentIndex,
                GenerateOptions(Backs(data), data[currentIndex].back, poolDraws, optionDraws), data[currentIndex].back))
    {
      currentIndex := (currentIndex + 1) % |data|;
      fcqOptionsCache := None;
      RenderCardQuiz(poolDraws, optionDraws);
    }

    /** The show-answer button toggles the answer box without re-rendering;
        the box shows the cached correct value whatever was picked. */
    method ShowAnswer() returns (answerText: string)
      requires Valid() && screen.CardQuizView?
      modifies this`screen
      ensures Valid() && screen == old(screen).(answerShown := !old(screen).answerShown)
      ensures answerText == "Correct answer: " + fcqOptionsCache.value.correct
    {
      screen := screen.(answerShown := !screen.answerShown);
      answerText := "Correct answer: " + fcqOptionsCache.value.correct;
    }
  }
}
