/**
  The session orchestrator: one record of loading flags and results, the
  reset that empties it, the document-processing handler that fills it
  from the four remote calls, and the render decision between the upload
  screen and the study screen.

  The remote calls are not modelled; each is an input `Outcome` saying what
  the backend produced or what it threw.
 */
module App {
  import opened StudyTypes
  import ContentView
  import Sidebar

  /** What a thrown value looks like to the catch block. */
  datatype Thrown = ErrorObject(message: string) | NonError

  /** The settled result of one remote call. */
  datatype Outcome<+T> = Ok(value: T) | Err(thrown: Thrown)

  datatype Session = Session(
    isLoading: bool,
    loadingMessage: string,
    error: Option<string>,
    documentProcessed: bool,
    extractedText: string,
    summary: string,
    quizQuestions: seq<QuizQuestion>,
    flashcards: seq<Flashcard>,
    activeMode: StudyMode)

  const ExtractingMessage := "Extracting text from document..."
  const GeneratingMessage := "Generating study materials..."
  const UnknownErrorMessage := "An unknown error occurred."

  /** The state the app mounts with. */
  const Initial := Session(false, "", None, false, "", "", [], [], Summary)

  /** JavaScript truthiness of the nullable error string: `null` and `""` are falsy. */
  predicate Truthy(error: Option<string>)
  {
    error.Some? && error.value != ""
  }

  /** The error banner, with its "Try Again" button, is on screen. */
  predicate ShowsErrorBanner(s: Session)
  {
    Truthy(s.error)
  }

  /** The file-upload screen (drop zone or spinner) is on screen; otherwise
      the sidebar and the content view are. */
  predicate ShowsUpload(s: Session)
  {
    !s.documentProcessed && !Truthy(s.error)
  }

  /** Every field back to its initial value, whatever the state was. */
  function ResetState(s: Session): (r: Session)
    ensures !r.isLoading && r.loadingMessage == "" && r.error == None
    ensures !r.documentProcessed && r.extractedText == "" && r.summary == ""
    ensures r.quizQuestions == [] && r.flashcards == [] && r.activeMode == Summary
    ensures ShowsUpload(r) && !ShowsErrorBanner(r)
  {
    Initial
  }

  /** Resetting twice is resetting once, and the result forgets the input. */
  lemma ResetIdempotent(s: Session, t: Session)
    ensures ResetState(ResetState(s)) == ResetState(s)
    ensures ResetState(s) == ResetState(t) == Initial
  {
  }

  /** The message shown for a thrown value. */
  function ErrorText(t: Thrown): (msg: string)
    ensures t.ErrorObject? ==> msg == t.message
    ensures t.NonError? ==> msg == UnknownErrorMessage
  {
    match t
    case ErrorObject(m) => m
    case NonError => UnknownErrorMessage
  }

  /** The fail-fast join of the three generation calls: all three results
      when all succeed, otherwise a failure carrying one of the failures. */
  function Join3<A, B, C>(a: Outcome<A>, b: Outcome<B>, c: Outcome<C>): (r: Outcome<(A, B, C)>)
    ensures r.Ok? <==> a.Ok? && b.Ok? && c.Ok?
    ensures r.Ok? ==> r.value == (a.value, b.value, c.value)
    ensures r.Err? ==> (a.Err? && r.thrown == a.thrown) || (b.Err? && r.thrown == b.thrown) || (c.Err? && r.thrown == c.thrown)
  {
    match (a, b, c)
    case (Ok(x), Ok(y), Ok(z)) => Ok((x, y, z))
    case (Err(e), _, _) => Err(e)
    case (_, Err(e), _) => Err(e)
    case (_, _, Err(e)) => Err(e)
  }

  /** Synchronous start of the handler: loading on, prior error cleared,
      first phase label. */
  function Begin(s: Session): (r: Session)
    ensures r.isLoading && r.error == None && r.loadingMessage == ExtractingMessage
    ensures r.(isLoading := s.isLoading, error := s.error, loadingMessage := s.loadingMessage) == s
  {
    s.(isLoading := true, error := None, loadingMessage := ExtractingMessage)
  }

  /** The handler after extraction succeeded, while awaiting the join. */
  function Extracted(s: Session, text: string): Session
  {
    s.(extractedText := text, loadingMessage := GeneratingMessage)
  }

  /** The handler after the join succeeded. */
  function Generated(s: Session, summary: string, quiz: seq<QuizQuestion>, cards: seq<Flashcard>): Session
  {
    s.(summary := summary, quizQuestions := quiz, flashcards := cards, documentProcessed := true)
  }

  /** The catch block. */
  function Caught(s: Session, t: Thrown): Session
  {
    s.(error := Some(ErrorText(t)))
  }

  /** The finally block. */
  function Finish(s: Session): Session
  {
    s.(isLoading := false, loadingMessage := "")
  }

  /** One run of the document-processing handler, from the file selection to
      the end of its finally block, given what each remote call settled with.
      The generation outcomes are consulted only when extraction succeeded. */
  function ProcessFile(
    s: Session,
    extraction: Outcome<string>,
    summaryRes: Outcome<string>,
    quizRes: Outcome<seq<QuizQuestion>>,
    cardsRes: Outcome<seq<Flashcard>>): (r: Session)
    // every outcome: loading over, label gone, mode untouched
    ensures !r.isLoading && r.loadingMessage == "" && r.activeMode == s.activeMode
    // full success
    ensures extraction.Ok? && summaryRes.Ok? && quizRes.Ok? && cardsRes.Ok? ==>
      && r.extractedText == extraction.value
      && r.summary == summaryRes.value
      && r.quizQuestions == quizRes.value
      && r.flashcards == cardsRes.value
      && r.documentProcessed
      && r.error == None
    // extraction failed: error set, every result untouched
    ensures extraction.Err? ==>
      && r.error == Some(ErrorText(extraction.thrown))
      && r.extractedText == s.extractedText
      && r.summary == s.summary
      && r.quizQuestions == s.quizQuestions
      && r.flashcards == s.flashcards
      && r.documentProcessed == s.documentProcessed
    // a generation call failed: text kept, the rest untouched, error set
    ensures extraction.Ok? && !(summaryRes.Ok? && quizRes.Ok? && cardsRes.Ok?) ==>
      && r.extractedText == extraction.value
      && r.summary == s.summary
      && r.quizQuestions == s.quizQuestions
      && r.flashcards == s.flashcards
      && r.documentProcessed == s.documentProcessed
      && r.error.Some?
      && ((summaryRes.Err? && r.error.value == ErrorText(summaryRes.thrown))
          || (quizRes.Err? && r.error.value == ErrorText(quizRes.thrown))
          || (cardsRes.Err? && r.error.value == ErrorText(cardsRes.thrown)))
  {
    var started := Begin(s);
    var settled :=
      match extraction
      case Err(e) => Caught(started, e)
      case Ok(text) =>
        var extracted := Extracted(started, text);
        match Join3(summaryRes, quizRes, cardsRes)
        case Err(e) => Caught(extracted, e)
        case Ok(results) => Generated(extracted, results.0, results.1, results.2);
    Finish(settled)
  }

  /** The states the user can observe while the handler is suspended on its
      awaits: during extraction, and (if it succeeded) during generation. */
  function InFlight(s: Session, extraction: Outcome<string>): (states: seq<Session>)
    ensures 1 <= |states| <= 2
    ensures |states| == 2 <==> extraction.Ok?
    ensures forall k :: 0 <= k < |states| ==> states[k].isLoading && states[k].error == None
    ensures forall k :: 0 <= k < |states| ==> states[k].documentProcessed == s.documentProcessed
    ensures states[0].loadingMessage == ExtractingMessage
    ensures |states| == 2 ==> states[1].loadingMessage == GeneratingMessage
  {
    match extraction
    case Err(_) => [Begin(s)]
    case Ok(text) => [Begin(s), Extracted(Begin(s), text)]
  }

  /** Started from the upload screen, the handler keeps the upload screen
      (now the spinner with the phase label) until it settles. */
  lemma InFlightShowsSpinner(s: Session, extraction: Outcome<string>, k: nat)
    requires ShowsUpload(s) && k < |InFlight(s, extraction)|
    ensures ShowsUpload(InFlight(s, extraction)[k])
    ensures InFlight(s, extraction)[k].isLoading
  {
  }

  /** A mode change alters nothing but the active mode. */
  function ChangeMode(s: Session, m: StudyMode): (r: Session)
    ensures r.activeMode == m
    ensures r.(activeMode := s.activeMode) == s
  {
    s.(activeMode := m)
  }

  /** The props the app hands to the content view. */
  function ContentPropsOf(s: Session): (p: ContentView.ContentProps)
    ensures p.mode == s.activeMode && p.fullText == s.extractedText
    ensures p.summary == s.summary && p.quizQuestions == s.quizQuestions && p.flashcards == s.flashcards
  {
    ContentView.ContentProps(s.activeMode, s.summary, s.quizQuestions, s.flashcards, s.extractedText)
  }

  /** The main area of the screen. */
  datatype Body =
    | UploadPane(isLoading: bool, loadingMessage: string)
    | StudyPane(activeMode: StudyMode, content: ContentView.View)

  datatype Screen = Screen(banner: Option<string>, body: Body)

  function Render(s: Session): (scr: Screen)
    ensures scr.banner.Some? <==> ShowsErrorBanner(s)
    ensures scr.banner.Some? ==> s.error == Some(scr.banner.value)
    ensures scr.body.UploadPane? <==> !s.documentProcessed && !Truthy(s.error)
    ensures scr.body.UploadPane? ==> scr.body.isLoading == s.isLoading && scr.body.loadingMessage == s.loadingMessage
    ensures scr.body.StudyPane? ==> scr.body.activeMode == s.activeMode
    ensures scr.body.StudyPane? ==> ContentView.ViewMode(scr.body.content) == Some(s.activeMode)
  {
    Screen(
      if Truthy(s.error) then Some(s.error.value) else None,
      if ShowsUpload(s) then UploadPane(s.isLoading, s.loadingMessage)
      else StudyPane(s.activeMode, ContentView.RenderContent(ContentPropsOf(s))))
  }

  /** A mode chosen in the sidebar is the mode the content view routes on
      next, and in full-text mode it shows the session's extracted text. */
  lemma ModeChangeReachesRouter(s: Session, m: StudyMode)
    requires !ShowsUpload(s)
    ensures Render(ChangeMode(s, m)).body == StudyPane(m, ContentView.RenderContent(ContentPropsOf(ChangeMode(s, m))))
    ensures m == FullText ==> Render(ChangeMode(s, m)).body.content == ContentView.FullTextPane(s.extractedText)
  {
    ContentView.RoutesEachModeToItsData(ContentPropsOf(ChangeMode(s, m)));
  }

  /** The user-driven events of the top-level screen. */
  datatype AppEvent =
    | FileChosen(extraction: Outcome<string>, summaryRes: Outcome<string>,
                 quizRes: Outcome<seq<QuizQuestion>>, cardsRes: Outcome<seq<Flashcard>>)
    | SidebarClicked(req: Sidebar.Request)
    | TryAgainClicked

  /** Whether the control that fires the event is on the screen: the drop
      zone only on the upload screen when not loading, the sidebar only on the
      study screen, "Try Again" only with the banner. */
  predicate Enabled(s: Session, ev: AppEvent)
  {
    match ev
    case FileChosen(_, _, _, _) => ShowsUpload(s) && !s.isLoading
    case SidebarClicked(_) => !ShowsUpload(s)
    case TryAgainClicked => ShowsErrorBanner(s)
  }

  /** The sidebar's "Upload New File" and the banner's "Try Again" are wired
      to the same reset. */
  function Step(s: Session, ev: AppEvent): Session
  {
    match ev
    case FileChosen(x, a, b, c) => ProcessFile(s, x, a, b, c)
    case SidebarClicked(req) =>
      (match req
       case ModeChange(m) => ChangeMode(s, m)
       case NewFile => ResetState(s))
    case TryAgainClicked => ResetState(s)
  }

  lemma NewFileAndTryAgainAgree(s: Session, t: Session)
    ensures Step(s, SidebarClicked(Sidebar.ClickUploadNew())) == Step(t, TryAgainClicked) == Initial
  {
  }

  /** Clicking sidebar item `k` sets the active mode to that item's mode and
      changes nothing else. */
  lemma NavClickSetsItsMode(s: Session, k: nat)
    requires k < |Sidebar.NavItems|
    ensures Step(s, SidebarClicked(Sidebar.ClickNav(k))) == s.(activeMode := Sidebar.NavItems[k].mode)
  {
  }

  /** What holds whenever no handler is running: not loading, no label,
      never both a processed document and an error, and the upload screen
      only ever with the default summary mode (the mode can be changed only
      from the sidebar, which the upload screen hides). */
  predicate Settled(s: Session)
  {
    && !s.isLoading
    && s.loadingMessage == ""
    && !(s.documentProcessed && s.error.Some?)
    && (ShowsUpload(s) ==> s.activeMode == Summary)
  }

  lemma StepKeepsSettled(s: Session, ev: AppEvent)
    requires Settled(s) && Enabled(s, ev)
    ensures Settled(Step(s, ev))
  {
  }

  /** Applies the events in order, ignoring those whose control is not shown. */
  function Run(s: Session, evs: seq<AppEvent>): Session
    decreases |evs|
  {
    if evs == [] then s
    else Run(if Enabled(s, evs[0]) then Step(s, evs[0]) else s, evs[1..])
  }

  lemma {:induction false} RunKeepsSettled(s: Session, evs: seq<AppEvent>)
    requires Settled(s)
    ensures Settled(Run(s, evs))
    decreases |evs|
  {
    if evs != [] {
      var next := if Enabled(s, evs[0]) then Step(s, evs[0]) else s;
      if Enabled(s, evs[0]) {
        StepKeepsSettled(s, evs[0]);
      }
      RunKeepsSettled(next, evs[1..]);
    }
  }

  /** From the initial state the app is never loading at rest and never shows
      a processed document together with an error. */
  lemma ReachableIsSettled(evs: seq<AppEvent>)
    ensures Settled(Run(Initial, evs))
  {
    RunKeepsSettled(Initial, evs);
  }

  /** A fully successful upload, from any reachable state where a file can be
      chosen, stores the four results and opens the study screen in the
      summary mode. */
  lemma SuccessOpensOnSummary(evs: seq<AppEvent>, text: string, summary: string,
                              quiz: seq<QuizQuestion>, cards: seq<Flashcard>)
    requires Enabled(Run(Initial, evs), FileChosen(Ok(text), Ok(summary), Ok(quiz), Ok(cards)))
    ensures var r := Step(Run(Initial, evs), FileChosen(Ok(text), Ok(summary), Ok(quiz), Ok(cards)));
            && r.activeMode == Summary
            && r.extractedText == text && r.summary == summary
            && r.quizQuestions == quiz && r.flashcards == cards
            && Render(r) == Screen(None, StudyPane(Summary, ContentView.SummaryPane(summary)))
  {
    ReachableIsSettled(evs);
    var r := Step(Run(Initial, evs), FileChosen(Ok(text), Ok(summary), Ok(quiz), Ok(cards)));
    ContentView.RoutesEachModeToItsData(ContentPropsOf(r));
  }

  /** Starting processing from a failed session clears the old error before
      anything else happens, whatever the mode. */
  lemma BeginClearsErrorKeepsMode(s: Session)
    ensures Begin(s).error == None && Begin(s).isLoading
    ensures Begin(s).activeMode == s.activeMode
    ensures !ShowsErrorBanner(Begin(s))
  {
  }

  /** An Error whose message is empty is recorded, but the falsy string hides
      the banner and the study screen, so the user is back at the upload
      screen with no message. */
  lemma EmptyMessageLooksLikeNoError(s: Session, a: Outcome<string>, b: Outcome<seq<QuizQuestion>>, c: Outcome<seq<Flashcard>>)
    requires ShowsUpload(s)
    ensures var r := ProcessFile(s, Err(ErrorObject("")), a, b, c);
            r.error == Some("") && ShowsUpload(r) && !ShowsErrorBanner(r)
  {
  }

  /** After a generation failure the study screen is shown beside the banner,
      and clicking "Full Text" shows the newly extracted text. */
  lemma GenerationFailureShowsExtractedText(s: Session, text: string, msg: string,
                                            b: Outcome<seq<QuizQuestion>>, c: Outcome<seq<Flashcard>>)
    requires msg != ""
    ensures var r := ProcessFile(s, Ok(text), Err(ErrorObject(msg)), b, c);
            && Render(r).banner == Some(msg)
            && Render(r).body.StudyPane?
            && Render(ChangeMode(r, FullText)).body == StudyPane(FullText, ContentView.FullTextPane(text))
  {
    var r := ProcessFile(s, Ok(text), Err(ErrorObject(msg)), b, c);
    ContentView.RoutesEachModeToItsData(ContentPropsOf(ChangeMode(r, FullText)));
  }

  /** A generation failure with an empty message leaves the new text behind
      the upload screen; if the next extraction then fails, the study screen
      opens with the error and its full-text view shows the earlier
      document's text. */
  lemma StaleTextAfterEmptyMessage(t1: string, msg: string,
                                   b: Outcome<seq<QuizQuestion>>, c: Outcome<seq<Flashcard>>)
    requires msg != ""
    ensures var first := ProcessFile(Initial, Ok(t1), Err(ErrorObject("")), b, c);
            var second := ProcessFile(first, Err(ErrorObject(msg)), Err(NonError), b, c);
            && ShowsUpload(first) && first.extractedText == t1
            && Render(second).banner == Some(msg)
            && Render(ChangeMode(second, FullText)).body == StudyPane(FullText, ContentView.FullTextPane(t1))
  {
    var first := ProcessFile(Initial, Ok(t1), Err(ErrorObject("")), b, c);
    var second := ProcessFile(first, Err(ErrorObject(msg)), Err(NonError), b, c);
    ContentView.RoutesEachModeToItsData(ContentPropsOf(ChangeMode(second, FullText)));
  }
}
