/**
  The view router: a pure function from the current study mode and the
  session's results to the one view on screen. It holds no state.
 */
module ContentView {
  import opened StudyTypes

  /** What the router is given. */
  datatype ContentProps = ContentProps(
    mode: StudyMode,
    summary: string,
    quizQuestions: seq<QuizQuestion>,
    flashcards: seq<Flashcard>,
    fullText: string)

  /** The rendered view, carrying the data it displays. */
  datatype View =
    | SummaryPane(summary: string)
    | QuizPane(questions: seq<QuizQuestion>)
    | FlashcardsPane(cards: seq<Flashcard>)
    | FullTextPane(text: string)
    | Placeholder

  /** The switch on the mode's run-time string; an unexpected string falls
      through to the neutral placeholder. */
  function RenderTag(tag: string, p: ContentProps): (v: View)
    ensures v.Placeholder? <==> ModeOfTag(tag).None?
    ensures ModeOfTag(tag) == Some(Summary) ==> v == SummaryPane(p.summary)
    ensures ModeOfTag(tag) == Some(Quiz) ==> v == QuizPane(p.quizQuestions)
    ensures ModeOfTag(tag) == Some(Flashcards) ==> v == FlashcardsPane(p.flashcards)
    ensures ModeOfTag(tag) == Some(FullText) ==> v == FullTextPane(p.fullText)
  {
    if tag == "summary" then SummaryPane(p.summary)
    else if tag == "quiz" then QuizPane(p.quizQuestions)
    else if tag == "flashcards" then FlashcardsPane(p.flashcards)
    else if tag == "fullText" then FullTextPane(p.fullText)
    else Placeholder
  }

  /** The mode a view belongs to, if it belongs to one. */
  function ViewMode(v: View): Option<StudyMode>
  {
    match v
    case SummaryPane(_) => Some(Summary)
    case QuizPane(_) => Some(Quiz)
    case FlashcardsPane(_) => Some(Flashcards)
    case FullTextPane(_) => Some(FullText)
    case Placeholder => None
  }

  /** Routing a well-typed mode. */
  function RenderContent(p: ContentProps): (v: View)
    ensures ViewMode(v) == Some(p.mode)
  {
    ModeTagRoundTrip(p.mode, ModeTag(p.mode));
    RenderTag(ModeTag(p.mode), p)
  }

  /** Each mode shows its own view carrying exactly its own data, and the
      placeholder is never reached for a mode of the closed enumeration. */
  lemma RoutesEachModeToItsData(p: ContentProps)
    ensures !RenderContent(p).Placeholder?
    ensures p.mode == Summary ==> RenderContent(p) == SummaryPane(p.summary)
    ensures p.mode == Quiz ==> RenderContent(p) == QuizPane(p.quizQuestions)
    ensures p.mode == Flashcards ==> RenderContent(p) == FlashcardsPane(p.flashcards)
    ensures p.mode == FullText ==> RenderContent(p) == FullTextPane(p.fullText)
  {
    ModeTagRoundTrip(p.mode, ModeTag(p.mode));
  }

  /** The view depends on the mode and on that mode's data only: changing
      any other prop leaves it as it was. */
  lemma RoutingIgnoresOtherData(p: ContentProps, q: ContentProps)
    requires p.mode == q.mode
    requires p.mode == Summary ==> p.summary == q.summary
    requires p.mode == Quiz ==> p.quizQuestions == q.quizQuestions
    requires p.mode == Flashcards ==> p.flashcards == q.flashcards
    requires p.mode == FullText ==> p.fullText == q.fullText
    ensures RenderContent(p) == RenderContent(q)
  {
    RoutesEachModeToItsData(p);
    RoutesEachModeToItsData(q);
  }
}
