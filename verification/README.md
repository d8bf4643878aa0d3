# Study helper: session lifecycle and study widgets in Dafny

A model of the deterministic core of a browser study aid that turns a
photographed document into a summary, a multiple-choice quiz and a deck of
flashcards by calling a remote generative-AI service. The model covers:

- **App** (`app.dfy`): the session record (`isLoading`, `loadingMessage`,
  `error`, `documentProcessed`, `extractedText`, `summary`,
  `quizQuestions`, `flashcards`, `activeMode`), `resetState`, the
  document-processing handler with its `try`/`catch`/`finally`, the
  fail-fast join of the three generation calls, the mode setter, and the
  render decision between the upload screen and the study screen. Remote
  calls are inputs: each is an `Outcome` that either carries the value the
  backend produced or what was thrown (an `Error` with a message, or any
  other value).
- **QuizView** (`quiz_view.dfy`): the answer map, the submit tally, reset,
  the per-option colouring and the empty-quiz guard.
- **FlashcardsView** (`flashcards_view.dfy`): cyclic next/previous
  navigation, the flip flag and the empty-deck guard.
- **ContentView** (`content_view.dfy`): the mode switch that picks the view
  and its data, including the placeholder for an unexpected mode string.
- **Sidebar** (`sidebar.dfy`): the four navigation items, which one is
  highlighted, and what each click requests.
- **StudyTypes** (`study_types.dfy`): `QuizQuestion`, `Flashcard`,
  `StudyMode` and the string tag of each mode.

`App` and `QuizView` each have an event type, an `Enabled` predicate
saying which controls are on screen, and a `Run` that applies a sequence of
events and ignores those whose control is not shown. `FlashcardsView` has
an event type and a `Run`. Its controls are all on screen exactly when the
deck is non-empty, so its `Run` ignores every event for an empty deck.
With these, invariants of every reachable state can be stated and proved.
A widget starts from `QuizView.Fresh` or `FlashcardsView.Start` when the
user switches to its mode from another mode, and when a new study screen
opens. In both cases the router mounts it anew. Clicking the item that is
already active keeps the widget's state.

Behaviour of the code that is easy to misread:

- A failed generation call does not discard everything. The extracted text
  was already stored (App.tsx:41) and stays. With the error set, the study
  screen is shown beside the error banner (App.tsx:93), so the full-text view
  shows that text.
- The session is a bundle of flags, not a tagged state machine. That
  "processed" and "error" never hold together is a property of reachable
  states (`App.ReachableIsSettled`), not of the type.
- After submission the correct option gets the same colour whether or not it
  was picked (components/QuizView.tsx:39). There is no separate
  "correct but unselected" colour.
- The render test uses JavaScript truthiness, so an `Error` with an empty
  message is stored but hidden (`App.EmptyMessageLooksLikeNoError`).
  The text extracted in such an attempt stays in the session. If the next
  extraction then fails, the full-text view shows the earlier document's text
  (`App.StaleTextAfterEmptyMessage`).

## Model

| member | source | states |
|---|---|---|
| StudyTypes.ModeTag | types.ts:13 | each mode's run-time literal, which is never empty |
| StudyTypes.ModeOfTag | components/ContentView.tsx:25-35 | a string names a mode only if it is that mode's literal |
| StudyTypes.ModeTagRoundTrip | types.ts:13 | the four mode literals and the modes correspond one to one |
| App.ResetState | App.tsx:22-32 | every field returns to its initial value, with the mode back to summary; the upload screen shows and no banner |
| App.ResetIdempotent | App.tsx:22-32 | resetting twice equals resetting once, and the result does not depend on the prior state |
| App.ErrorText | App.tsx:58 | an `Error` shows its own message; any other thrown value shows "An unknown error occurred." |
| App.Join3 | App.tsx:44-48 | the join succeeds iff all three calls succeed, with their three results; otherwise it fails with one of the failures |
| App.ProcessFile | App.tsx:34-63 | loading ends and the label clears on every path, and the mode is untouched. Full success stores the four results, marks the document processed and leaves no error. An extraction failure sets the error and leaves every result and the processed flag as they were. A generation failure keeps the new text, leaves summary, quiz, cards and flag as they were, and sets the error of a failed call |
| App.Begin | App.tsx:35-39 | the synchronous start of the handler turns loading on, clears the error and shows the extraction label; every other field is unchanged |
| App.BeginClearsErrorKeepsMode | App.tsx:35-36 | starting to process turns loading on, clears any error and keeps the mode |
| App.InFlight | App.tsx:35-44 | while the handler waits, the app is loading with no error. The label is the extraction label first, then, only after extraction succeeded, the generation label |
| App.InFlightShowsSpinner | App.tsx:93-98 | started from the upload screen, the upload screen (spinner) stays up until the handler settles |
| App.ChangeMode | App.tsx:102 | a mode change alters only the active mode |
| App.ContentPropsOf | App.tsx:105-111 | the content view gets the active mode, the results, and the extracted text as its full text |
| App.Render | App.tsx:83-114 | the banner shows iff the error is a non-empty string. The upload screen shows iff the document is unprocessed and there is no (truthy) error. Otherwise the study screen shows the view of the active mode |
| App.ModeChangeReachesRouter | App.tsx:102-111 | the mode chosen is the one the router renders next; in full-text mode it shows the session's extracted text |
| App.NewFileAndTryAgainAgree | App.tsx:87 | "Upload New File" and "Try Again" both lead to the same initial state from any state |
| App.NavClickSetsItsMode | App.tsx:102 | clicking a sidebar item sets the active mode to that item's mode and changes nothing else |
| App.StepKeepsSettled | App.tsx:22-63 | an enabled event keeps the app settled. Settled means not loading, no label, never processed with an error, and the summary mode whenever the upload screen shows |
| App.RunKeepsSettled | App.tsx:22-63 | any sequence of events keeps a settled app settled |
| App.ReachableIsSettled | App.tsx:20-63 | every state reachable from the initial one is settled |
| App.SuccessOpensOnSummary | App.tsx:34-63 | a fully successful upload from any reachable state stores the four results and opens the study screen on the summary, with no banner |
| App.EmptyMessageLooksLikeNoError | App.tsx:58-93 | an `Error` with an empty message is recorded, but the upload screen shows with no banner |
| App.GenerationFailureShowsExtractedText | App.tsx:41-111 | after a generation failure the banner and the study screen both show. Clicking "Full Text" shows the text just extracted |
| App.StaleTextAfterEmptyMessage | App.tsx:41-111 | if an upload fails in generation with an empty message and the next fails in extraction, the full-text view shows the first document's text |
| QuizView.CountCorrect | components/QuizView.tsx:19-24 | the count over the first n questions is at most n; a zero count means none of them scored |
| QuizView.CountCorrectIsCardinality | components/QuizView.tsx:19-24 | the running count equals the number of questions whose answer exactly matches |
| QuizView.TallyScore | components/QuizView.tsx:18-25 | the loop's score is the number of indices whose answer equals the correct answer, at most the number of questions |
| QuizView.Score | components/QuizView.tsx:19-25 | the recorded score is the number of questions whose answer exactly matches, at most the number of questions |
| QuizView.Submit | components/QuizView.tsx:18-27 | submit freezes the quiz, keeps the answers and records the exact-match count (0 ≤ score ≤ number of questions) |
| QuizView.AnswerChange | components/QuizView.tsx:14-16 | the given index now holds the answer; other answers, the flag and the score are unchanged |
| QuizView.UnansweredNeverScores | components/QuizView.tsx:21 | an unanswered question never contributes to the score |
| QuizView.ChooseOption | components/QuizView.tsx:74-83 | a click on a disabled (submitted) radio changes nothing. Otherwise that option becomes the question's answer, and answers keep coming from the options |
| QuizView.SubmittedAnswersFrozen | components/QuizView.tsx:81-83 | after submission an option click leaves the quiz unchanged |
| QuizView.Reset | components/QuizView.tsx:29-33 | reset empties the answers, clears the flag and zeroes the score |
| QuizView.ResetIdempotent | components/QuizView.tsx:29-33 | reset is idempotent and always yields the fresh state |
| QuizView.Step | components/QuizView.tsx:14-33 | every enabled event keeps the quiz consistent. Answers come from the options, an unsubmitted quiz has score 0, and a submitted quiz's score counts its matching answers |
| QuizView.RunKeepsConsistent | components/QuizView.tsx:14-33 | consistency holds after any event sequence |
| QuizView.ReachableIsConsistent | components/QuizView.tsx:10-33 | every state reachable from a fresh quiz is consistent |
| QuizView.UnmatchableQuestionNeverScores | components/QuizView.tsx:74-81 | if the correct answer is not among a question's options, that question never scores |
| QuizView.ClassifyOption | components/QuizView.tsx:35-42 | before submit every option is neutral. After submit an option is green iff it is the correct answer, and red iff it was picked and is wrong |
| QuizView.WrongMarkIffMissed | components/QuizView.tsx:35-42 | after submit, an answered question has a red option iff it did not score |
| QuizView.Render | components/QuizView.tsx:45-104 | an empty list takes the no-quiz branch. Otherwise each option of each question gets the colour `ClassifyOption` gives it. The score line shows iff submitted, and the submit button iff not |
| QuizView.ScoreLineBounded | components/QuizView.tsx:61 | in every reachable state the shown score is at most the number of questions |
| FlashcardsView.Next | components/FlashcardsView.tsx:13-18 | next unflips and moves to the following card, wrapping from the last card to 0 |
| FlashcardsView.Prev | components/FlashcardsView.tsx:20-25 | prev unflips and moves to the previous card, wrapping from 0 to the last card |
| FlashcardsView.Flip | components/FlashcardsView.tsx:46 | a card click toggles the flag and keeps the index |
| FlashcardsView.FlipTwiceIsIdentity | components/FlashcardsView.tsx:46 | two clicks are the identity |
| FlashcardsView.NextPrevInverse | components/FlashcardsView.tsx:13-25 | prev after next, and next after prev, return to the same card unflipped |
| FlashcardsView.NextTimesAdvances | components/FlashcardsView.tsx:16 | k presses of next advance the index by k modulo the deck size |
| FlashcardsView.FullLapReturns | components/FlashcardsView.tsx:16 | n presses of next on an n-card deck return to the start |
| FlashcardsView.RunStaysInRange | components/FlashcardsView.tsx:10-25 | any event sequence keeps the index inside the deck |
| FlashcardsView.Render | components/FlashcardsView.tsx:27-63 | an empty deck takes the no-flashcards branch. Otherwise the current card's term or definition shows, as the flag says, at position index+1 in [1, n] |
| FlashcardsView.ReachableRenders | components/FlashcardsView.tsx:10-63 | from the first card, every reachable state indexes a real card with position in [1, n] |
| ContentView.RenderTag | components/ContentView.tsx:25-36 | each of the four mode strings yields its own view with its own data; any other string yields the placeholder |
| ContentView.RenderContent | components/ContentView.tsx:23-39 | the rendered view belongs to the given mode |
| ContentView.RoutesEachModeToItsData | components/ContentView.tsx:25-33 | summary shows the summary, quiz the questions, flashcards the cards, full text the text; no mode reaches the placeholder |
| ContentView.RoutingIgnoresOtherData | components/ContentView.tsx:23-39 | the view depends only on the mode and that mode's data |
| Sidebar.NavIndex | components/Sidebar.tsx:41-64 | every mode has a navigation item for it |
| Sidebar.IsActive | components/Sidebar.tsx:44-62 | among the drawn items, the highlighted one is exactly the item of the active mode |
| Sidebar.ActiveIndices | components/Sidebar.tsx:44-62 | exactly one item is highlighted for any active mode |
| Sidebar.ExactlyOneActive | components/Sidebar.tsx:44-63 | an item is highlighted iff its mode is the active mode, and clicking the highlighted item requests that mode |
| Sidebar.ClickNav | components/Sidebar.tsx:44-63 | clicking item k requests a mode change to the mode whose item is k, the mode for which item k is highlighted |
| Sidebar.ClickIdentifiesItem | components/Sidebar.tsx:41-64 | distinct items request distinct modes |
| Sidebar.ClickUploadNew | components/Sidebar.tsx:68 | "Upload New File" requests a new file, not a mode change |

## Left out

- services/geminiService.ts: the network client, the base64 file reading, and the API-key check at load time are not modelled. Their results are the `Outcome` inputs of `App.ProcessFile`. A quiz or deck whose JSON would not parse is just an `Ok([])` input.
- components/FileUpload.tsx: drag-and-drop and file-picker plumbing are not modelled. Its spinner is `App.Body.UploadPane` with `isLoading` set.
- components/SummaryView.tsx and the full-text view: these only display a string. All markup and CSS are reduced to the views and the option classes.
- App.Join3: `Promise.all` rejects with whichever rejection happens first in time. The model has no time, so it reports the first failed call in argument order. The contract promises only that the error is one of the failures.
- App.ProcessFile: the handler's awaits are one atomic step here. The states visible while it waits are given separately by `App.InFlight`. A second file chosen while one is in flight cannot happen, because the upload screen shows only the spinner then.
- FlashcardsView.Next and FlashcardsView.Prev: the 150 ms delay between unflipping and moving is dropped; both happen in one step. Both require a non-empty deck, since the buttons exist only in that branch.
- The score percentage (components/QuizView.tsx:62) is a floating-point rounding and is not modelled.
- A parsed question without a `correctAnswer` field is not modelled, because the typed fields here are always strings. In the source, it would compare `undefined === undefined` for an unanswered question.
- The console logging in the catch block is not modelled.
