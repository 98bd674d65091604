/**
 * The quiz page (frontend/src/pages/QuizPage.tsx): a description is sent to the quiz generator,
 * then the questions are answered one at a time with feedback, and the score is shown at the end.
 * The state hooks are the fields of `QuizPage`; each handler is a transition function on the
 * snapshot `QuizState`. `generateQuiz` awaits the generator, so it is split into the part before the
 * request (`GenerateStarted`) and the part that runs when the reply or the failure arrives
 * (`QuizArrived`).
 */
module Quiz {
  import opened Wrappers
  import opened Text

  datatype Phase = Input | Loading | Quiz | Result

  datatype Question = Question(questionText: string, answers: seq<string>, correctAnswerIndex: int)

  datatype QuizData = QuizData(quizName: string, subject: string, questions: seq<Question>)

  datatype QuizState = QuizState(
    phase: Phase,
    description: string,
    quizData: Option<QuizData>,
    currentQIndex: int,
    score: int,
    showFeedback: bool,
    selectedAnsIndex: Option<int>)

  /** The initial values of the state hooks. */
  const Initial: QuizState := QuizState(Input, "", None, 0, 0, false, None)

  function Questions(s: QuizState): seq<Question> {
    if s.quizData.Some? then s.quizData.value.questions else []
  }

  /** The description input changes. */
  function DescriptionChanged(s: QuizState, description: string): QuizState {
    s.(description := description)
  }

  /** `generateQuiz` up to the request: a blank description changes nothing, otherwise the page loads. */
  function GenerateStarted(s: QuizState): (r: QuizState)
    ensures AllSpace(s.description) ==> r == s
    ensures !AllSpace(s.description) ==> r == s.(phase := Loading)
  {
    if Trim(s.description) == "" then s else s.(phase := Loading)
  }

  /**
   * `generateQuiz` after the request: a quiz (Some) starts at its first question with score 0; a
   * failure (None: HTTP error or unreadable body) returns to the input phase and keeps the rest.
   */
  function QuizArrived(s: QuizState, reply: Option<QuizData>): (r: QuizState)
    ensures reply.Some? ==> r == s.(quizData := reply, phase := Quiz, currentQIndex := 0, score := 0)
    ensures reply.None? ==> r == s.(phase := Input)
  {
    if reply.Some? then s.(quizData := reply, phase := Quiz, currentQIndex := 0, score := 0)
    else s.(phase := Input)
  }

  /** Reading `questions[currentQIndex]` does not throw: there is no quiz, or the index is in range. */
  predicate CurrentReadable(s: QuizState) {
    s.quizData.None? || 0 <= s.currentQIndex < |s.quizData.value.questions|
  }

  /** The clicked answer is the right one for the current question. */
  predicate IsCorrect(s: QuizState, index: int)
    requires CurrentReadable(s)
  {
    s.quizData.Some? && index == s.quizData.value.questions[s.currentQIndex].correctAnswerIndex
  }

  /**
   * `handleAnswerClick`: ignored while feedback shows; otherwise records the answer, shows feedback,
   * and adds one to the score exactly when the answer is correct.
   */
  function AnswerClicked(s: QuizState, index: int): (r: QuizState)
    requires CurrentReadable(s)
    ensures s.showFeedback ==> r == s
    ensures !s.showFeedback ==> r.showFeedback && r.selectedAnsIndex == Some(index)
    ensures r.score == if !s.showFeedback && IsCorrect(s, index) then s.score + 1 else s.score
    ensures r.phase == s.phase && r.quizData == s.quizData && r.currentQIndex == s.currentQIndex
    ensures r.description == s.description
  {
    if s.showFeedback then s
    else
      var bonus := if IsCorrect(s, index) then 1 else 0;
      s.(selectedAnsIndex := Some(index), showFeedback := true, score := s.score + bonus)
  }

  /**
   * `nextQuestion`: always clears the feedback and the selected answer; moves to the next question
   * unless this is the last one (or there is no quiz), in which case the result phase starts.
   */
  function AfterNextQuestion(s: QuizState): (r: QuizState)
    ensures !r.showFeedback && r.selectedAnsIndex.None?
    ensures r.score == s.score && r.quizData == s.quizData && r.description == s.description
    ensures s.quizData.Some? && s.currentQIndex < |Questions(s)| - 1 ==>
      r.currentQIndex == s.currentQIndex + 1 && r.phase == s.phase
    ensures !(s.quizData.Some? && s.currentQIndex < |Questions(s)| - 1) ==>
      r.currentQIndex == s.currentQIndex && r.phase == Result
  {
    var cleared := s.(showFeedback := false, selectedAnsIndex := None);
    if s.quizData.Some? && s.currentQIndex < |s.quizData.value.questions| - 1 then
      cleared.(currentQIndex := s.currentQIndex + 1)
    else cleared.(phase := Result)
  }

  /** The "Try New Topic" button of the result screen. */
  function AfterTryNewTopic(s: QuizState): QuizState {
    s.(phase := Input)
  }

  // ---------------------------------------------------------------- what the page lets a user do

  datatype UiEvent =
    | EditDescription(text: string)
    | ClickGenerate
    | Reply(reply: Option<QuizData>)
    | ClickAnswer(index: int)
    | ClickNext
    | ClickTryNewTopic

  /**
   * The event can happen in state `s`: each button is rendered only in its phase (an answer button
   * only for an existing question, the next button only while feedback shows), and a reply arrives
   * only while loading.
   */
  predicate Enabled(s: QuizState, e: UiEvent) {
    match e
    case EditDescription(_) => s.phase == Input
    case ClickGenerate => s.phase == Input
    case Reply(_) => s.phase == Loading
    case ClickAnswer(_) => s.phase == Quiz && 0 <= s.currentQIndex < |Questions(s)|
    case ClickNext => s.phase == Quiz && s.showFeedback
    case ClickTryNewTopic => s.phase == Result
  }

  function Apply(s: QuizState, e: UiEvent): QuizState
    requires Enabled(s, e)
  {
    match e
    case EditDescription(d) => DescriptionChanged(s, d)
    case ClickGenerate => GenerateStarted(s)
    case Reply(reply) => QuizArrived(s, reply)
    case ClickAnswer(i) => AnswerClicked(s, i)
    case ClickNext => AfterNextQuestion(s)
    case ClickTryNewTopic => AfterTryNewTopic(s)
  }

  /** Questions answered so far: a finished quiz counts all of its questions. */
  function Answered(s: QuizState): int {
    if s.phase == Quiz then s.currentQIndex + (if s.showFeedback then 1 else 0)
    else |Questions(s)|
  }

  /** The page invariant: the score never exceeds the questions answered, nor those the number asked. */
  predicate Inv(s: QuizState) {
    && (s.quizData.None? ==> s.phase in {Input, Loading} && s.score == 0)
    && (s.phase != Quiz ==> !s.showFeedback && s.selectedAnsIndex.None?)
    && (s.showFeedback <==> s.selectedAnsIndex.Some?)
    && (s.phase == Quiz ==> 0 <= s.currentQIndex && (s.currentQIndex < |Questions(s)| || (s.currentQIndex == 0 && !s.showFeedback)))
    && 0 <= s.score <= Answered(s) <= |Questions(s)|
  }

  lemma InitialInv()
    ensures Inv(Initial)
  {
  }

  lemma ApplyPreservesInv(s: QuizState, e: UiEvent)
    requires Inv(s) && Enabled(s, e)
    ensures Inv(Apply(s, e))
  {
  }

  /** The state after a sequence of events, each enabled when it happens; None if one is not. */
  function Run(s: QuizState, events: seq<UiEvent>): Option<QuizState>
    decreases |events|
  {
    if events == [] then Some(s)
    else if !Enabled(s, events[0]) then None
    else Run(Apply(s, events[0]), events[1..])
  }

  /** Whatever a user does, the score stays within the number of questions answered. */
  lemma {:induction false} RunKeepsInv(s: QuizState, events: seq<UiEvent>)
    requires Inv(s) && Run(s, events).Some?
    ensures Inv(Run(s, events).value)
    ensures 0 <= Run(s, events).value.score <= Answered(Run(s, events).value) <= |Questions(Run(s, events).value)|
    decreases |events|
  {
    if events != [] {
      ApplyPreservesInv(s, events[0]);
      RunKeepsInv(Apply(s, events[0]), events[1..]);
    }
  }

  /** While a quiz is on, the current question index lies in `[0, questions.length)`. */
  lemma IndexInRange(s: QuizState)
    requires Inv(s) && s.phase == Quiz && |Questions(s)| > 0
    ensures 0 <= s.currentQIndex < |Questions(s)|
  {
  }

  /** The component's state hooks. */
  class QuizPage {
    var phase: Phase
    var description: string
    var quizData: Option<QuizData>
    var currentQIndex: int
    var score: int
    var showFeedback: bool
    var selectedAnsIndex: Option<int>

    function State(): QuizState
      reads this
    {
      QuizState(phase, description, quizData, currentQIndex, score, showFeedback, selectedAnsIndex)
    }

    constructor ()
      ensures State() == Initial
    {
      phase, description, quizData := Input, "", None;
      currentQIndex, score, showFeedback, selectedAnsIndex := 0, 0, false, None;
    }

    method SetDescription(text: string)
      modifies this
      ensures State() == DescriptionChanged(old(State()), text)
    {
      description := text;
    }

    /** `generateQuiz` up to the request; `requested` says whether the request is sent. */
    method GenerateQuiz() returns (requested: bool)
      modifies this
      ensures State() == GenerateStarted(old(State()))
      ensures requested <==> !AllSpace(old(description))
    {
      if Trim(description) == "" {
        return false;
      }
      phase := Loading;
      requested := true;
    }

    /** The rest of `generateQuiz`, once the generator has answered (Some) or failed (None). */
    method GenerateQuizCompleted(reply: Option<QuizData>)
      modifies this
      ensures State() == QuizArrived(old(State()), reply)
    {
      if reply.None? {
        phase := Input;
        return;
      }
      quizData := reply;
      phase := Quiz;
      currentQIndex := 0;
      score := 0;
    }

    method HandleAnswerClick(index: int)
      requires CurrentReadable(State())
      modifies this
      ensures State() == AnswerClicked(old(State()), index)
    {
      if showFeedback {
        return;
      }
      selectedAnsIndex := Some(index);
      showFeedback := true;
      if quizData.Some? && index == quizData.value.questions[currentQIndex].correctAnswerIndex {
        score := score + 1;
      }
    }

    method NextQuestion()
      modifies this
      ensures State() == AfterNextQuestion(old(State()))
    {
      showFeedback := false;
      selectedAnsIndex := None;
      if quizData.Some? && currentQIndex < |quizData.value.questions| - 1 {
        currentQIndex := currentQIndex + 1;
      } else {
        phase := Result;
      }
    }

    method TryNewTopic()
      modifies this
      ensures State() == AfterTryNewTopic(old(State()))
    {
      phase := Input;
    }
  }
}
