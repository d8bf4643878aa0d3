/**
  The shapes shared by every part of the study aid: a quiz question, a
  flashcard, the closed set of study modes and their string tags, and an
  optional value for the nullable fields of the session.
 */
module StudyTypes {

  /** `null` or a value; used for the session's `string | null` error. */
  datatype Option<+T> = None | Some(value: T)

  /** One multiple-choice question as the generation backend returns it.
      Nothing forces `correctAnswer` to be one of `options`. */
  datatype QuizQuestion = QuizQuestion(question: string, options: seq<string>, correctAnswer: string)

  datatype Flashcard = Flashcard(term: string, definition: string)

  /** The four study views a processed document offers. */
  datatype StudyMode = Summary | Quiz | Flashcards | FullText

  /** The string literal a mode is at run time. */
  function ModeTag(m: StudyMode): (tag: string)
    ensures |tag| > 0
  {
    match m
    case Summary => "summary"
    case Quiz => "quiz"
    case Flashcards => "flashcards"
    case FullText => "fullText"
  }

  /** The mode a run-time string stands for, if any. */
  function ModeOfTag(tag: string): (m: Option<StudyMode>)
    ensures m.Some? ==> ModeTag(m.value) == tag
  {
    if tag == "summary" then Some(Summary)
    else if tag == "quiz" then Some(Quiz)
    else if tag == "flashcards" then Some(Flashcards)
    else if tag == "fullText" then Some(FullText)
    else None
  }

  /** Tags and modes are in one-to-one correspondence. */
  lemma ModeTagRoundTrip(m: StudyMode, tag: string)
    ensures ModeOfTag(ModeTag(m)) == Some(m)
    ensures ModeOfTag(tag) == Some(m) <==> ModeTag(m) == tag
  {
  }
}
