# Study tool session model

A Dafny model of the logic of a single-page study tool (`script.js`). The
user picks a subject, a chapter and one of three modes: flashcards, quiz or
flashcard quiz. Start loads a data file and shows its first record. Each
button then changes the session state and re-renders the study area.

The model has these parts:

- `Sessions.Session` is a class. Its fields are the page's module-level
  variables: `data`, `currentIndex`, `currentMode`, `showingBack`,
  `lastSelection`, `showExplanation`, `fcqSelection` and `fcqOptionsCache`.
  A further field, `screen`, says what the study area shows. Because of
  that field, a handler can only be called while its own view is on screen.
  Each click handler is a method. In every case, its contract (its
  `ensures` together with its `modifies` frame) states the whole new
  `State()`: either as an update of the old state
  (`State() == old(State()).(...)`), as a new value, or, for Show Answer,
  through a frame that lets only the screen change. Start and Restart
  state it separately for a failed load, a load that keeps the cache and a
  load that rebuilds the options. Each handler also re-establishes
  `Valid()`: a view is shown only for a record that exists, has the view's
  kind and is displayed as the state says.
- `Display` holds the pure projection from state to screen:
  - the class of each option button;
  - the verdict row;
  - the explanation text;
  - one screen description per view.
- `CardQuiz` generates the flashcard-quiz options. The wrong pool is
  shuffled, three distractors are taken, the correct back is added and the
  list is shuffled again. `BuildOptions` does this as the code does: it
  filters the backs into a sequence (`WrongPool`), copies the pool and then
  the option list into arrays, and shuffles each array in place. It is
  proved equal to the function `GenerateOptions`.
- `Shuffle` is `shuffleInPlace`, a Fisher–Yates loop over an array. The
  random index of each step comes from a caller-supplied sequence of draws,
  with each draw `j` in `[0, i]`.
- `Escaping` is `escapeHTML` and `escapeAttr`, written as the chained
  global replacements the code performs. `DecodeEntities` is the reading
  back that an HTML parser performs on the four character references
  involved.
- `Loader` is the path convention of `loadStudyData` and the message of
  its HTTP error.
- `Scenarios` runs click sequences through the session methods. They show
  the findings below.

Points where the code does something a user might not expect:

- Start clears no interaction flag of any mode (script.js:30-48). A stale
  quiz selection or flashcard-quiz cache survives into the new data; see
  Findings.
- A failed load still sets the mode and the index (script.js:33, :36). It
  keeps the old data, because `currentData` is assigned only when the load
  succeeds (script.js:37).
- Duplicate backs are kept in the wrong pool (script.js:235), so the
  flashcard-quiz options can repeat.
- The flashcard-quiz mode reads the flashcards folder, not the quiz folder
  (script.js:331-333).

`Sessions.Session.Start` models the code as written. The corrected start is
`Sessions.Session.Restart`.

## Model

| member | source | states |
|---|---|---|
| `Sessions.Session.constructor` | script.js:17-20 | Initial page state: no data, index 0, mode "flashcards", every flag false or null, empty study area. |
| `Sessions.NextIndex` | script.js:122-126 | Next gives `(i+1) % n`. The result stays in `[0, n)`. It is `i+1`, or 0 when `i` is the last index. |
| `Sessions.PrevIndex` | script.js:117-121 | Prev gives `(i-1+n) % n`. The result stays in `[0, n)`. It is `i-1`, or `n-1` when `i` is 0. |
| `Sessions.NavigationInverse` | script.js:117-126 | Prev after next returns to the same index, and so does next after prev. |
| `Sessions.Session.Flip` | script.js:113-116 | Only `showingBack` changes, and it is negated, so two flips restore it. The re-rendered card shows the other side. |
| `Sessions.Session.FlashcardPrev` | script.js:117-121 | The index moves back with wrap-around and `showingBack` becomes false. No other mode's flag changes. |
| `Sessions.Session.FlashcardNext` | script.js:122-126 | The index moves forward with wrap-around and `showingBack` becomes false. No other mode's flag changes. |
| `Sessions.Session.RenderFlashcard` | script.js:87-111 | The card view shows the front or the back of the current card, as `showingBack` says, with its 1-based position and the total. |
| `Sessions.Session.QuizSelect` | script.js:188-195 | While the selection is null or empty, a click records the clicked value. Once the selection is non-empty, clicks change nothing (lock). An empty value never locks. |
| `Sessions.Session.ToggleExplanation` | script.js:197-200 | Only `showExplanation` changes; the selection and its lock are kept. |
| `Sessions.Session.QuizPrev` | script.js:202-207 | The index moves back with wrap-around. The selection becomes null and the explanation is hidden. Nothing else changes. |
| `Sessions.Session.QuizNext` | script.js:208-213 | The index moves forward with wrap-around. The selection becomes null and the explanation is hidden. Nothing else changes. |
| `Sessions.Session.RenderQuiz` | script.js:134-185 | The quiz view shows the question, the option classes, the verdict, and the explanation when it is toggled on. |
| `Sessions.Session.RebuildOptions` | script.js:230-246 | A cache miss stores options generated for the current card, with its index and its back, and clears `fcqSelection`. No other variable changes. |
| `Sessions.Session.RenderCardQuiz` | script.js:225-293 | Options are generated only when no cache exists for the current index, and a rebuild clears `fcqSelection`. Otherwise the options, the correct value and the selection are unchanged. No other variable changes. |
| `Sessions.Session.CardQuizSelect` | script.js:296-303 | The first truthy pick wins and is the only change; the re-render keeps the cached options and hides the answer box. Later clicks change nothing. |
| `Sessions.Session.CardQuizPrev` | script.js:306-310 | The index moves back with wrap-around. The cache is rebuilt for the new index, the selection is cleared and the answer box is hidden. |
| `Sessions.Session.CardQuizNext` | script.js:312-316 | The index moves forward with wrap-around. The cache is rebuilt for the new index, the selection is cleared and the answer box is hidden. |
| `Sessions.Session.ShowAnswer` | script.js:319-323 | Toggles the answer box without re-rendering. It gives "Correct answer: " and the cached correct value, whatever was picked. |
| `Sessions.Session.RenderCurrent` | script.js:64-81 | Empty data gives the no-data placeholder; otherwise the current mode's view is shown. An unknown mode leaves the screen as it is. Only the flashcard-quiz variables can change. |
| `Sessions.Session.Start` | script.js:30-48 | The whole new state in each case. A failed load changes only the mode and the index (to 0) and shows the message with the path. A successful load also installs the data. It keeps `showingBack`, `lastSelection` and `showExplanation`. It keeps the flashcard-quiz cache and selection unless options are due for index 0. In that case it stores fresh options and clears the selection. |
| `Sessions.Session.Restart` | script.js:30-48 | Corrected start: a failed load changes no state. A successful load clears every flag. In flashcard-quiz mode with records it generates fresh options for index 0; otherwise the cache is null. |
| `Display.StyleOf` | script.js:150-157 | An option is classed exactly when it equals a truthy selection. It is classed "correct" exactly when it also equals the answer. |
| `Display.VerdictOf` | script.js:138-143 | There is no verdict exactly when the selection is falsy. The verdict is "Correct" exactly when a truthy selection equals the answer. |
| `Display.ExplanationText` | script.js:175-179 | The text is never empty. A truthy explanation is shown as it is; a missing or empty one gives the default text. |
| `Display.CardScreen` | script.js:87-111 | The card view shows the back when flipped, else the front, with the 1-based position and the total. |
| `Display.QuizScreen` | script.js:134-185 | The quiz view shows the question and its options, each classed by `StyleOf` against the answer. It shows the verdict, the explanation exactly when toggled on, and the position. |
| `Display.CardQuizScreen` | script.js:250-293 | The flashcard-quiz view shows the front and the cached options, each classed against the cached correct back. It shows the verdict and the position, and the answer box is hidden. |
| `Display.StylesClassify` | script.js:150-162 | The contract of `Styles`, the `.map` over the options (also script.js:262-274). The list has one class per option. An option is classed exactly when its text equals a truthy selection. It is classed "correct" exactly when that text also equals the answer. |
| `Display.NoSelectionNoStyles` | script.js:138-157 | With a null or empty selection, no option is classed and there is no verdict. |
| `Display.DuplicatesStyledAlike` | script.js:262-269 | Options with equal text get equal classes, so every duplicate of the selected text is classed. |
| `Display.VerdictAgreesWithStyles` | script.js:138-143 | When the selection is among the options, the verdict is "Correct" exactly when the selected option is classed correct, and "Wrong" exactly when it is classed wrong. |
| `Display.QuizScenario` | script.js:150-157 | Options X and Y with answer Y: selecting X classes X wrong, leaves Y unclassed and gives the verdict "Wrong". |
| `CardQuiz.Backs` | script.js:231 | One back per card. |
| `CardQuiz.WrongPool` | script.js:235 | The wrong pool holds every back except the correct one, each as often as it occurs. Its length is the number of backs that differ from the correct one. |
| `CardQuiz.WrongPoolOfAbsent` | script.js:235 | When no back equals the correct one, the filter keeps the list as it is. |
| `CardQuiz.Distractors` | script.js:234-237 | There are `min(3, pool size)` distractors, drawn without replacement from the wrong pool. All of them are drawn when the pool has at most three. |
| `CardQuiz.GenerateOptions` | script.js:239-240 | The options number `1 + min(3, pool size)`. As a multiset they are the correct back plus the distractors. |
| `CardQuiz.GeneratedOptionsShape` | script.js:231-240 | The options contain the correct back exactly once and have length `1 + min(3, #backs ≠ correct)`. Every other entry is a back that differs from the correct one. |
| `CardQuiz.SmallPoolShowsAll` | script.js:234-240 | With at most three wrong backs, the options are exactly the correct back plus the whole pool. |
| `CardQuiz.DistinctBacksGiveDistinctOptions` | script.js:231-240 | If the backs are pairwise different, so are the options. |
| `CardQuiz.FourCardScenario` | script.js:231-240 | Four cards whose first back differs from the other three, at index 0: the options are a permutation of the four backs. |
| `CardQuiz.BuildOptions` | script.js:230-246 | The filter on a sequence, then the two in-place array shuffles with the slice and the prepend between them, gives exactly `GenerateOptions`, with the current index and the correct back. |
| `Shuffle.Swap` | script.js:353 | The two positions exchange their elements and every other position is kept. |
| `Shuffle.ShuffleFrom` | script.js:351-354 | The remaining steps from index `i` down to 1 keep the length. |
| `Shuffle.Shuffled` | script.js:350-355 | For any draws with `0 <= j <= i`, the shuffle keeps the length and the multiset of elements. |
| `Shuffle.ShuffleInPlace` | script.js:350-355 | After the loop from `length-1` down to 1, the array equals the specification `Shuffled` of the old contents under the draws. |
| `Shuffle.SwapCells` | script.js:353 | The destructuring swap exchanges the two cells. |
| `Shuffle.ShuffleFromIsPermutation` | script.js:351-354 | Each remaining run of steps keeps the multiset of elements. |
| `Escaping.ReplaceAll` | script.js:359-362 | A global replacement leaves only characters of the input other than the replaced one, and characters of the replacement. |
| `Escaping.EscapeHTML` | script.js:357-363 | Null or undefined gives the empty string. The output contains no `<` and no `>`. |
| `Escaping.EscapeHTMLPerChar` | script.js:359-362 | Because `&` is replaced first, the three chained replacements amount to escaping each character on its own. |
| `Escaping.EscapeHTMLRoundTrip` | script.js:357-363 | Decoding `&lt;`, `&gt;` and `&amp;` in the output of `escapeHTML` gives back the input. |
| `Escaping.EscapeAttr` | script.js:365-370 | Null or undefined gives the empty string. The output contains no `"` and no `<`. |
| `Escaping.EscapeAttrAmpersandClash` | script.js:365-370 | `escapeAttr` does not escape `&`. So `<` and `&lt;` get the same attribute, and the attribute of `&lt;` reads back as `<`. |
| `Escaping.EscapeAttrFixed` | script.js:365-370 | The corrected attribute escape also maps null to the empty string and keeps `"` and `<` out. |
| `Escaping.EscapeAttrFixedRoundTrip` | script.js:365-370 | With `&` escaped first, the attribute reads back as exactly the original text. |
| `Loader.StudyPath` | script.js:329-337 | The path is empty exactly for an unknown mode. For a known mode it is the mode's folder, the subject and `chapter<N>.json`; flashcard quiz reads the flashcards folder. |
| `Loader.FailureMessage` | script.js:339-346 | A non-success status gives a message that starts with "HTTP " and the status and ends with the path. A network error or a JSON error passes its own message through. |
| `Loader.StudyPathRoundTrip` | script.js:331-337 | For a subject without `/`, the path reads back as the mode's folder, the subject and the chapter number. |
| `Scenarios.StaleQuizLockAfterStart` | script.js:30-48 | Answer a quiz wrongly, then start another: the new first question shows "Wrong" and rejects the right answer. |
| `Scenarios.FreshQuizAfterRestart` | script.js:188-195 | The same clicks with the corrected start: the new question is unanswered and the right answer is accepted. |
| `Scenarios.StaleCardQuizOptionsAfterStart` | script.js:229-248 | Start a flashcard quiz, then start another: the new first card "c" is offered back "1" and otherwise only the old deck's backs "1" and "2"; its own back "3" is not among them. |
| `Scenarios.FreshCardQuizOptionsAfterRestart` | script.js:230-246 | With the corrected start, the new first card's back is among its options. |
| `Scenarios.AmpersandOptionClick` | script.js:150-195 | Clicking the right answer whose text is `&lt;` records `<`: no option is classed and the verdict is "Wrong". |
| `Scenarios.AmpersandOptionClickFixed` | script.js:150-195 | With the corrected attribute escape, the same click is recognised as correct. |

## Left out

- Network and async I/O are not modelled:
  - `fetch` and `res.json` are network I/O and asynchronous. The outcome of a load is an input to Start: the records, an HTTP status, a rejected `fetch` (network error) or a JSON parse error.
  - Overlapping loads are not modelled. Each Start completes at once.
  - Clicks while a load is pending are not modelled. The code sets `currentMode` and `currentIndex = 0` before it awaits the load, while the old view and the old data stay in place. A Next click in that window moves the index on the old data. The new data can then be shorter than that index, which makes the `if (!card) return` guards of the three views (script.js:89, :136, :227) reachable and leaves the old view on screen.
- The DOM is not modelled:
  - the HTML template strings;
  - `getElementById`, `querySelectorAll` and `onclick` wiring;
  - `populateChapterOptions` and the subject/chapter table;
  - `console.error`.
  
  A screen is described by its texts, option classes, verdict and position, not by markup.
- `Math.random` and `Math.floor` are floating-point randomness. They are replaced by caller-supplied draws, and uniformity of the shuffle is not stated.
- `Sessions.Session.Start` requires one of the three known modes, because the mode selector only offers those. The empty path of an unknown mode is modelled in `Loader.StudyPath`.
- `Sessions.Session.Start` requires loaded records that match the mode's file format: flashcards for the two flashcard modes, questions for the quiz. Records of the wrong kind, where the code would read `undefined` fields, are not modelled.
- The `if (!card) return` guards of the three views are not modelled as branches. Without clicks during a pending load, `Valid()` keeps the index in range whenever a view is shown, so the guards never fire.
- `Sessions.Session.QuizSelect` and `Sessions.Session.CardQuizSelect` take the clicked button's `data-opt` value as it is read back. How the browser decodes that attribute is modelled only in the scenarios, through `Escaping.DecodeEntities`.
- `Escaping.DecodeEntities` covers only `&lt;`, `&gt;`, `&amp;` and `&quot;` with their semicolons. Other character references and the legacy forms without a semicolon are not modelled.
- `String(str)` coercion of non-string values is not modelled. Inputs are strings or null.
- Strings are sequences of characters. UTF-16 code units are not modelled.

## Findings

| source | as written | input that shows it | evidently intended | confidence | as-written member | corrected member |
|---|---|---|---|---|---|---|
| script.js:30-48 | Start sets the mode, the index and the data but clears no selection, so `lastSelection` survives into the new quiz | Answer question 0 of a quiz with "X", then start a quiz whose first question offers "A" and "B": it shows "Wrong" at once and ignores clicks | Start clears every interaction flag of every mode | high; not executed | `Scenarios.StaleQuizLockAfterStart` | `Sessions.Session.Restart` |
| script.js:229-248 | Start keeps `fcqOptionsCache`, and the cache check compares only the index, so a cache for index 0 of the old deck is reused | Flashcard quiz on backs "1","2" at index 0, then start a flashcard quiz on backs "3","4": card "c" is offered only "1" and "2" | A new start drops the cache, so the options belong to the new deck | high; not executed | `Scenarios.StaleCardQuizOptionsAfterStart` | `Scenarios.FreshCardQuizOptionsAfterRestart` |
| script.js:365-370 | `escapeAttr` does not escape `&`, so the `data-opt` attribute can read back as a different text than the option | A question whose right answer is the text `&lt;`: its button's attribute reads back as `<`, so the right answer is judged "Wrong" | `&` is escaped first, as `escapeHTML` does, so the attribute reads back as the option text | medium; not executed | `Escaping.EscapeAttrAmpersandClash` | `Escaping.EscapeAttrFixedRoundTrip` |
