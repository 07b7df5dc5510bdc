/** The path convention of `loadStudyData`: which data file a subject, a
    chapter number and a mode resolve to. Fetching and parsing the file are
    outside the model. */
module Loader {
  import opened Wrappers
  import opened StudyData

  /** The file that `loadStudyData` fetches: the mode's folder, the subject
      and `chapter<N>.json`; the empty string for a mode other than the three
      known ones. The two flashcard modes read the same file. */
  function StudyPath(subject: string, chapterNum: string, mode: string): (path: string)
    ensures path == "" <==> !KnownMode(mode)
    ensures KnownMode(mode) ==> path == FolderOf(mode) + "/" + subject + "/chapter" + chapterNum + ".json"
  {
    if mode == FlashcardsMode || mode == CardQuizMode then
      "flashcards/" + subject + "/chapter" + chapterNum + ".json"
    else if mode == QuizMode then
      "quizes/" + subject + "/chapter" + chapterNum + ".json"
    else
      ""
  }

  /** Why a load failed: the server answered with a non-success status;
      `fetch` itself rejected (a network error); or the body was not
      well-formed JSON. The last two carry the message of the error thrown. */
  datatype LoadFailure = HttpError(status: string) | FetchRejected(message: string) | BadJson(message: string)

  /** The message of the error a failed load throws. For a non-success
      status it is made by `loadStudyData` and names both the status and the
      path; otherwise it is the thrown error's own message. */
  function FailureMessage(failure: LoadFailure, path: string): (msg: string)
    ensures failure.HttpError? ==> "HTTP " + failure.status <= msg && |path| <= |msg| && msg[|msg| - |path|..] == path
    ensures !failure.HttpError? ==> msg == failure.message
  {
    match failure
    case HttpError(status) => "HTTP " + status + " while fetching " + path
    case FetchRejected(message) => message
    case BadJson(message) => message
  }

  /** The folder of data files a mode reads. */
  function FolderOf(mode: string): string
  {
    if mode == QuizMode then "quizes" else "flashcards"
  }

  datatype PathParts = PathParts(folder: string, subject: string, chapterNum: string)

  /** The position of the first `/` in `s`, if any. */
  function FirstSlash(s: string): (r: Option<nat>)
    ensures r.Some? ==> r.value < |s| && s[r.value] == '/' && '/' !in s[..r.value]
    ensures r.None? ==> '/' !in s
  {
    if s == [] then None
    else if s[0] == '/' then Some(0)
    else match FirstSlash(s[1..])
      case None => None
      case Some(k) => assert s[..k + 1] == [s[0]] + s[1..][..k]; Some(k + 1)
  }

  /** Reads a data-file path back into its folder, subject and chapter
      number: the subject runs up to the first `/` after the folder. */
  function SplitStudyPath(p: string): Option<PathParts>
  {
    if "flashcards/" <= p then SplitAfterFolder("flashcards", p[11..])
    else if "quizes/" <= p then SplitAfterFolder("quizes", p[7..])
    else None
  }

  /** Reads `subject/chapterN.json`, the part of a path after its folder. */
  function SplitAfterFolder(folder: string, rest: string): Option<PathParts>
  {
    match FirstSlash(rest)
    case None => None
    case Some(k) =>
      var tail := rest[k + 1..];
      if |tail| >= 12 && "chapter" <= tail && tail[|tail| - 5..] == ".json" then
        Some(PathParts(folder, rest[..k], tail[7..|tail| - 5]))
      else
        None
  }

  /** A subject without `/` after the folder's `/` is found again by
      `FirstSlash`. */
  lemma {:induction false} FirstSlashAfter(subject: string, tail: string)
    requires '/' !in subject
    ensures FirstSlash(subject + "/" + tail) == Some(|subject|)
  {
    if subject != [] {
      assert (subject + "/" + tail)[1..] == subject[1..] + "/" + tail;
      FirstSlashAfter(subject[1..], tail);
    } else {
      assert (subject + "/" + tail)[0] == '/';
    }
  }

  /** For a subject without `/`, the path of a known mode reads back as the
      mode's folder, the subject and the chapter number. */
  lemma StudyPathRoundTrip(subject: string, chapterNum: string, mode: string)
    requires KnownMode(mode) && '/' !in subject
    ensures SplitStudyPath(StudyPath(subject, chapterNum, mode)) == Some(PathParts(FolderOf(mode), subject, chapterNum))
  {
    if mode == QuizMode {
      QuizPathRoundTrip(subject, chapterNum);
    } else {
      FlashcardPathRoundTrip(subject, chapterNum);
    }
  }

  /** The quiz half of `StudyPathRoundTrip`. */
  lemma QuizPathRoundTrip(subject: string, chapterNum: string)
    requires '/' !in subject
    ensures SplitStudyPath("quizes/" + subject + "/chapter" + chapterNum + ".json") == Some(PathParts("quizes", subject, chapterNum))
  {
    var rest := subject + "/" + ("chapter" + chapterNum + ".json");
    var p := "quizes/" + subject + "/chapter" + chapterNum + ".json";
    assert p == "quizes/" + rest;
    assert p[..7] == "quizes/" && p[7..] == rest;
    assert p[0] != "flashcards/"[0];
    SplitAfterFolderRoundTrip("quizes", subject, chapterNum);
  }

  /** The flashcard half of `StudyPathRoundTrip`. */
  lemma FlashcardPathRoundTrip(subject: string, chapterNum: string)
    requires '/' !in subject
    ensures SplitStudyPath("flashcards/" + subject + "/chapter" + chapterNum + ".json") == Some(PathParts("flashcards", subject, chapterNum))
  {
    var rest := subject + "/" + ("chapter" + chapterNum + ".json");
    var p := "flashcards/" + subject + "/chapter" + chapterNum + ".json";
    assert p == "flashcards/" + rest;
    assert p[..11] == "flashcards/" && p[11..] == rest;
    SplitAfterFolderRoundTrip("flashcards", subject, chapterNum);
  }

  lemma SplitAfterFolderRoundTrip(folder: string, subject: string, chapterNum: string)
    requires '/' !in subject
    ensures SplitAfterFolder(folder, subject + "/" + ("chapter" + chapterNum + ".json")) == Some(PathParts(folder, subject, chapterNum))
  {
    var tail := "chapter" + chapterNum + ".json";
    var rest := subject + "/" + tail;
    FirstSlashAfter(subject, tail);
    assert rest[|subject| + 1..] == tail;
    assert rest[..|subject|] == subject;
    assert tail[..7] == "chapter";
    assert tail[|tail| - 5..] == ".json";
    assert tail[7..|tail| - 5] == chapterNum;
  }
}
