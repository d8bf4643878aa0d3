/**
  The quiz widget: a map from question index to the option the student
  picked, a `submitted` flag that freezes the inputs, and the score
  computed on submission by exact string comparison with each question's
  `correctAnswer`.
 */
module QuizView {
  import opened StudyTypes

  datatype QuizState = QuizState(answers: map<nat, string>, submitted: bool, score: nat)

  /** The state a freshly mounted quiz starts in. */
  const Fresh := QuizState(map[], false, 0)

  /** Question `i` earns a point: it was answered, with exactly the correct string. */
  predicate Scores(qs: seq<QuizQuestion>, answers: map<nat, string>, i: nat)
    requires i < |qs|
  {
    i in answers && answers[i] == qs[i].correctAnswer
  }

  /** Reference definition of the score: the set of questions that earn a point. */
  function CorrectIndices(qs: seq<QuizQuestion>, answers: map<nat, string>): set<nat>
  {
    set i: nat | i < |qs| && Scores(qs, answers, i)
  }

  /** Points earned by the first `n` questions, counted one by one. */
  function CountCorrect(qs: seq<QuizQuestion>, answers: map<nat, string>, n: nat): (c: nat)
    requires n <= |qs|
    ensures c <= n
    ensures c == 0 ==> forall i: nat :: i < n ==> !Scores(qs, answers, i)
  {
    if n == 0 then 0
    else CountCorrect(qs, answers, n - 1) + (if Scores(qs, answers, n - 1) then 1 else 0)
  }

  /** The count agrees with the size of the reference set, prefix by prefix. */
  lemma {:induction false} CountCorrectIsCardinality(qs: seq<QuizQuestion>, answers: map<nat, string>, n: nat)
    requires n <= |qs|
    ensures CountCorrect(qs, answers, n) == |set i: nat | i < n && Scores(qs, answers, i)|
  {
    if n > 0 {
      CountCorrectIsCardinality(qs, answers, n - 1);
      var before := set i: nat | i < n - 1 && Scores(qs, answers, i);
      var upto := set i: nat | i < n && Scores(qs, answers, i);
      if Scores(qs, answers, n - 1) {
        assert upto == before + {n - 1};
        assert n - 1 !in before;
      } else {
        assert upto == before;
      }
    }
  }

  /** The score a submission records. */
  function Score(qs: seq<QuizQuestion>, answers: map<nat, string>): (s: nat)
    ensures s == |CorrectIndices(qs, answers)|
    ensures s <= |qs|
  {
    CountCorrectIsCardinality(qs, answers, |qs|);
    CountCorrect(qs, answers, |qs|)
  }

  /** The `forEach` loop of the submit handler, which tallies matches in
      index order with a mutable counter. `Score` is the same tally as a
      pure function, which the state machine uses; this method keeps the
      handler's own loop and proves it computes the reference count. */
  method TallyScore(qs: seq<QuizQuestion>, answers: map<nat, string>) returns (newScore: nat)
    ensures newScore == |CorrectIndices(qs, answers)|
    ensures newScore <= |qs|
  {
    newScore := 0;
    var index := 0;
    while index < |qs|
      invariant index <= |qs|
      invariant newScore == CountCorrect(qs, answers, index)
    {
      if index in answers && answers[index] == qs[index].correctAnswer {
        newScore := newScore + 1;
      }
      index := index + 1;
    }
    CountCorrectIsCardinality(qs, answers, |qs|);
  }

  /** Recording a choice for one question. */
  function AnswerChange(st: QuizState, questionIndex: nat, answer: string): (r: QuizState)
    ensures questionIndex in r.answers && r.answers[questionIndex] == answer
    ensures r.answers.Keys == st.answers.Keys + {questionIndex}
    ensures forall j :: j in st.answers && j != questionIndex ==> r.answers[j] == st.answers[j]
    ensures r.submitted == st.submitted && r.score == st.score
  {
    st.(answers := st.answers[questionIndex := answer])
  }

  /** Clicking option `optionIndex` of question `questionIndex`: a disabled
      input (after submission) fires no change. */
  function ChooseOption(st: QuizState, qs: seq<QuizQuestion>, questionIndex: nat, optionIndex: nat): (r: QuizState)
    requires questionIndex < |qs| && optionIndex < |qs[questionIndex].options|
    ensures st.submitted ==> r == st
    ensures !st.submitted ==> r == AnswerChange(st, questionIndex, qs[questionIndex].options[optionIndex])
    ensures AnswersFromOptions(st, qs) ==> AnswersFromOptions(r, qs)
  {
    if st.submitted then st
    else AnswerChange(st, questionIndex, qs[questionIndex].options[optionIndex])
  }

  /** Submitting: the score is the number of exact matches and the inputs freeze. */
  function Submit(st: QuizState, qs: seq<QuizQuestion>): (r: QuizState)
    ensures r.submitted
    ensures r.answers == st.answers
    ensures r.score == |CorrectIndices(qs, st.answers)| <= |qs|
  {
    QuizState(st.answers, true, Score(qs, st.answers))
  }

  /** "Try Again": forget every answer and unfreeze. */
  function Reset(st: QuizState): (r: QuizState)
    ensures r.answers == map[] && !r.submitted && r.score == 0
  {
    Fresh
  }

  lemma ResetIdempotent(st: QuizState)
    ensures Reset(Reset(st)) == Reset(st)
    ensures Reset(st) == Fresh
  {
  }

  /** Unanswered questions never earn a point. */
  lemma UnansweredNeverScores(qs: seq<QuizQuestion>, answers: map<nat, string>, i: nat)
    requires i < |qs| && i !in answers
    ensures i !in CorrectIndices(qs, answers)
  {
  }

  /** Every recorded answer belongs to a real question and is one of its options. */
  predicate AnswersFromOptions(st: QuizState, qs: seq<QuizQuestion>)
  {
    forall i :: i in st.answers ==> i < |qs| && st.answers[i] in qs[i].options
  }

  /** What holds of every state the widget can reach: answers come from the
      options, an unsubmitted quiz shows no score, and a submitted one shows
      the count of its (frozen) answers that match. */
  predicate Consistent(st: QuizState, qs: seq<QuizQuestion>)
  {
    && AnswersFromOptions(st, qs)
    && (!st.submitted ==> st.score == 0)
    && (st.submitted ==> st.score == |CorrectIndices(qs, st.answers)|)
  }

  /** The events the rendered quiz can deliver. */
  datatype QuizEvent =
    | OptionClicked(questionIndex: nat, optionIndex: nat)
    | SubmitClicked
    | TryAgainClicked

  /** Whether the event's control is on the screen: radio inputs exist only
      for real options, the submit button only before submission, and the
      "Try Again" button only after it. */
  predicate Enabled(st: QuizState, qs: seq<QuizQuestion>, ev: QuizEvent)
  {
    match ev
    case OptionClicked(qi, oi) => qi < |qs| && oi < |qs[qi].options|
    case SubmitClicked => |qs| > 0 && !st.submitted
    case TryAgainClicked => |qs| > 0 && st.submitted
  }

  function Step(st: QuizState, qs: seq<QuizQuestion>, ev: QuizEvent): (r: QuizState)
    requires Enabled(st, qs, ev)
    ensures Consistent(st, qs) ==> Consistent(r, qs)
  {
    match ev
    case OptionClicked(qi, oi) => ChooseOption(st, qs, qi, oi)
    case SubmitClicked => Submit(st, qs)
    case TryAgainClicked => Reset(st)
  }

  /** Applies the events in order, ignoring those whose control is not shown. */
  function Run(st: QuizState, qs: seq<QuizQuestion>, evs: seq<QuizEvent>): QuizState
    decreases |evs|
  {
    if evs == [] then st
    else
      var next := if Enabled(st, qs, evs[0]) then Step(st, qs, evs[0]) else st;
      Run(next, qs, evs[1..])
  }

  /** Every state reachable from a fresh quiz is consistent. */
  lemma {:induction false} RunKeepsConsistent(st: QuizState, qs: seq<QuizQuestion>, evs: seq<QuizEvent>)
    requires Consistent(st, qs)
    ensures Consistent(Run(st, qs, evs), qs)
    decreases |evs|
  {
    if evs != [] {
      var next := if Enabled(st, qs, evs[0]) then Step(st, qs, evs[0]) else st;
      RunKeepsConsistent(next, qs, evs[1..]);
    }
  }

  lemma ReachableIsConsistent(qs: seq<QuizQuestion>, evs: seq<QuizEvent>)
    ensures Consistent(Run(Fresh, qs, evs), qs)
  {
    RunKeepsConsistent(Fresh, qs, evs);
  }

  /** A question whose correct answer is not among its options never scores,
      whatever the student picks. */
  lemma UnmatchableQuestionNeverScores(st: QuizState, qs: seq<QuizQuestion>, i: nat)
    requires AnswersFromOptions(st, qs)
    requires i < |qs| && qs[i].correctAnswer !in qs[i].options
    ensures i !in CorrectIndices(qs, st.answers)
  {
    if i in st.answers {
      assert st.answers[i] in qs[i].options;
    }
  }

  /** While submitted, no option click changes the answers. */
  lemma SubmittedAnswersFrozen(st: QuizState, qs: seq<QuizQuestion>, qi: nat, oi: nat)
    requires st.submitted && qi < |qs| && oi < |qs[qi].options|
    ensures Step(st, qs, OptionClicked(qi, oi)) == st
  {
  }

  /** The colouring of one option. */
  datatype OptionClass =
    | Selectable     // before submission: hover highlight only
    | MarkedCorrect  // the correct answer, picked or not
    | MarkedWrong    // a picked answer that is not the correct one
    | Plain          // everything else after submission

  function ClassifyOption(st: QuizState, qs: seq<QuizQuestion>, questionIndex: nat, option: string): (c: OptionClass)
    requires questionIndex < |qs|
    ensures !st.submitted <==> c == Selectable
    ensures st.submitted ==> (c == MarkedCorrect <==> option == qs[questionIndex].correctAnswer)
    ensures c == MarkedWrong <==>
      (st.submitted && option != qs[questionIndex].correctAnswer
       && questionIndex in st.answers && st.answers[questionIndex] == option)
  {
    if !st.submitted then Selectable
    else
      var isCorrect := option == qs[questionIndex].correctAnswer;
      var isSelected := questionIndex in st.answers && st.answers[questionIndex] == option;
      if isCorrect then MarkedCorrect
      else if isSelected && !isCorrect then MarkedWrong
      else Plain
  }

  /** After submission, some option of an answered question is marked wrong
      exactly when that question did not score. */
  lemma WrongMarkIffMissed(st: QuizState, qs: seq<QuizQuestion>, qi: nat)
    requires st.submitted && AnswersFromOptions(st, qs)
    requires qi < |qs| && qi in st.answers
    ensures (exists k :: 0 <= k < |qs[qi].options| && ClassifyOption(st, qs, qi, qs[qi].options[k]) == MarkedWrong)
        <==> !Scores(qs, st.answers, qi)
  {
    if !Scores(qs, st.answers, qi) {
      var picked := st.answers[qi];
      var k :| 0 <= k < |qs[qi].options| && qs[qi].options[k] == picked;
      assert ClassifyOption(st, qs, qi, qs[qi].options[k]) == MarkedWrong;
    }
  }

  /** What the widget shows. */
  datatype QuizScreen =
    | NoQuiz
    | QuizBody(scoreLine: Option<(nat, nat)>, classes: seq<seq<OptionClass>>, showSubmit: bool)

  /** The empty-quiz guard comes first, so an empty list never reaches indexing. */
  function Render(st: QuizState, qs: seq<QuizQuestion>): (r: QuizScreen)
    ensures r.NoQuiz? <==> |qs| == 0
    ensures r.QuizBody? ==> |r.classes| == |qs|
    ensures r.QuizBody? ==> (r.showSubmit <==> !st.submitted)
    ensures r.QuizBody? ==> (r.scoreLine.Some? <==> st.submitted)
    ensures r.QuizBody? && st.submitted ==> r.scoreLine.value == (st.score, |qs|)
    ensures r.QuizBody? ==> forall i :: 0 <= i < |qs| ==> |r.classes[i]| == |qs[i].options|
    ensures r.QuizBody? ==> forall i, k :: 0 <= i < |qs| && 0 <= k < |qs[i].options| ==>
      r.classes[i][k] == ClassifyOption(st, qs, i, qs[i].options[k])
  {
    if |qs| == 0 then NoQuiz
    else
      QuizBody(
        if st.submitted then Some((st.score, |qs|)) else None,
        seq(|qs|, i requires 0 <= i < |qs| =>
          seq(|qs[i].options|, k requires 0 <= k < |qs[i].options| => ClassifyOption(st, qs, i, qs[i].options[k]))),
        !st.submitted)
  }

  /** In any reachable state the displayed score never exceeds the number of questions. */
  lemma ScoreLineBounded(qs: seq<QuizQuestion>, evs: seq<QuizEvent>)
    ensures var st := Run(Fresh, qs, evs);
            Render(st, qs).QuizBody? && st.submitted ==>
              Render(st, qs).scoreLine.value.0 <= Render(st, qs).scoreLine.value.1
  {
    ReachableIsConsistent(qs, evs);
    var st := Run(Fresh, qs, evs);
    assert |CorrectIndices(qs, st.answers)| == Score(qs, st.answers);
  }
}
