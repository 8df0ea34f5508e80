/**
 * The trivia quiz screen: a fixed bank of questions, six pieces of mutable
 * screen state and the click handlers that move between them.
 *
 * The state is first described as a value (`QuizState`) with one pure step
 * function per click handler; the screen itself is the class `Quiz`, whose
 * methods update its fields in place and are specified by those step
 * functions. Lemmas about the step functions give the invariants, the
 * counting law and termination.
 */
module Trivia {

  datatype Option<T> = None | Some(value: T)

  /** One trivia question: a prompt, its choices and the index of the right one. */
  datatype Question = Question(text: string, options: seq<string>, correctIndex: int)

  /** Every question of the bank offers this many choices. */
  const OptionsPerQuestion := 4

  /** Lives at the start of a quiz run. */
  const MaxLives := 3

  predicate WellFormedQuestion(q: Question)
  {
    |q.options| == OptionsPerQuestion && 0 <= q.correctIndex < |q.options|
  }

  /** A bank the screen can run over: not empty, every question well formed. */
  predicate WellFormedBank(bank: seq<Question>)
  {
    |bank| > 0 && forall i :: 0 <= i < |bank| ==> WellFormedQuestion(bank[i])
  }

  /** The sixteen questions the screen is built with. */
  function Bank(): (b: seq<Question>)
    ensures |b| == 16
    ensures WellFormedBank(b)
  {
    [ Question("¿Qué lenguaje usa Jetpack Compose?", ["Java", "Kotlin", "Swift", "Python"], 1),
      Question("¿Qué componente muestra listas?", ["RecyclerView", "LazyColumn", "ListView", "Grid"], 1),
      Question("¿Qué anotación define UI?", ["@Composable", "@View", "@Screen", "@UI"], 0),
      Question("¿Qué guarda estado al rotar?", ["remember", "rememberSaveable", "var", "lateinit"], 1),
      Question("¿Qué layout es vertical?", ["Row", "Box", "Column", "Stack"], 2),
      Question("¿Qué librería de diseño usa Compose?", ["Material3", "Bootstrap", "UIKit", "Flutter"], 0),
      Question("¿Qué función inicia UI?", ["setContent", "onCreate", "build", "startUI"], 0),
      Question("¿Qué componente tiene barra superior?", ["Scaffold", "Column", "LazyRow", "Card"], 0),
      Question("¿Qué muestra opción única?", ["Checkbox", "RadioButton", "Switch", "Slider"], 1),
      Question("¿Qué estructura repite elementos?", ["LazyColumn", "Box", "Spacer", "Padding"], 0),
      Question("¿Qué guarda lista observable?", ["ArrayList", "mutableStateListOf", "List", "Map"], 1),
      Question("¿Qué maneja navegación simple?", ["Intent", "Router", "Link", "URL"], 0),
      Question("¿Qué layout alinea horizontal?", ["Column", "Box", "Row", "Stack"], 2),
      Question("¿Qué muestra texto?", ["Text", "Label", "Paragraph", "Span"], 0),
      Question("¿Qué permite scroll eficiente?", ["LazyColumn", "Column", "Box", "GridLayout"], 0),
      Question("¿Qué componente permite mostrar botones en Compose?", ["Text", "Button", "Image", "Spacer"], 1) ]
  }

  // ---------------------------------------------------------------------------
  // The screen state as a value
  // ---------------------------------------------------------------------------

  /** The three phases the two booleans `showFeedback` and `quizFinished` encode. */
  datatype Phase = Answering | Feedback | Finished

  /** The six state variables of the quiz screen. */
  datatype QuizState = QuizState(
    currentIndex: int,
    selectedAnswer: Option<int>,
    score: int,
    showFeedback: bool,
    lives: int,
    quizFinished: bool)

  function PhaseOf(s: QuizState): Phase
  {
    if s.quizFinished then Finished
    else if s.showFeedback then Feedback
    else Answering
  }

  /** The values the six state variables start with, and return to on restart. */
  const Initial := QuizState(0, None, 0, false, MaxLives, false)

  /** Whether the selected answer is the current question's right one. */
  predicate IsCorrect(bank: seq<Question>, s: QuizState)
    requires 0 <= s.currentIndex < |bank|
  {
    s.selectedAnswer == Some(bank[s.currentIndex].correctIndex)
  }

  /**
   * The invariant of every state the screen can reach.  Besides the bounds,
   * it holds the counting law: every confirmed answer either raised the
   * score or cost a life, and one answer is confirmed per question passed
   * plus the one whose feedback is on screen.
   */
  predicate Inv(bank: seq<Question>, s: QuizState)
  {
    && WellFormedBank(bank)
    && 0 <= s.currentIndex < |bank|
    && 0 <= s.lives <= MaxLives
    && 0 <= s.score
    && s.score + (MaxLives - s.lives) == s.currentIndex + (if s.showFeedback then 1 else 0)
    && (s.selectedAnswer.Some? ==> 0 <= s.selectedAnswer.value < |bank[s.currentIndex].options|)
    && (s.showFeedback ==> s.selectedAnswer.Some?)
    && (!s.showFeedback ==> s.lives >= 1)
    && (s.quizFinished ==> s.showFeedback && (s.lives == 0 || s.currentIndex == |bank| - 1))
  }

  lemma InitialInv(bank: seq<Question>)
    requires WellFormedBank(bank)
    ensures Inv(bank, Initial) && PhaseOf(Initial) == Answering
  {
  }

  /**
   * Clicking option `i` (a row or its radio button).  The option index comes
   * from iterating over the current question's options; the click is
   * ignored while feedback is shown.
   */
  function SelectStep(bank: seq<Question>, s: QuizState, i: int): (t: QuizState)
    requires Inv(bank, s) && !s.quizFinished
    requires 0 <= i < |bank[s.currentIndex].options|
    ensures Inv(bank, t) && PhaseOf(t) == PhaseOf(s)
    ensures s.showFeedback ==> t == s
    ensures !s.showFeedback ==> t.selectedAnswer == Some(i)
    ensures t.(selectedAnswer := s.selectedAnswer) == s
  {
    if !s.showFeedback then s.(selectedAnswer := Some(i)) else s
  }

  /** The main button while no feedback is shown: score or lose a life, then show feedback. */
  function ConfirmStep(bank: seq<Question>, s: QuizState): (t: QuizState)
    requires Inv(bank, s) && PhaseOf(s) == Answering && s.selectedAnswer.Some?
    ensures Inv(bank, t) && PhaseOf(t) == Feedback
    ensures t.currentIndex == s.currentIndex && t.selectedAnswer == s.selectedAnswer
    ensures IsCorrect(bank, s) ==> t.score == s.score + 1 && t.lives == s.lives
    ensures !IsCorrect(bank, s) ==> t.score == s.score && t.lives == s.lives - 1
  {
    if IsCorrect(bank, s) then
      s.(score := s.score + 1, showFeedback := true)
    else
      s.(lives := s.lives - 1, showFeedback := true)
  }

  /** The main button while feedback is shown: finish, or move to the next question. */
  function AdvanceStep(bank: seq<Question>, s: QuizState): (t: QuizState)
    requires Inv(bank, s) && PhaseOf(s) == Feedback
    ensures Inv(bank, t)
    ensures t.quizFinished <==> (s.lives == 0 || s.currentIndex == |bank| - 1)
    ensures t.quizFinished ==> t == s.(quizFinished := true)
    ensures !t.quizFinished ==>
      t == s.(currentIndex := s.currentIndex + 1, selectedAnswer := None, showFeedback := false)
  {
    if s.lives == 0 || s.currentIndex == |bank| - 1 then
      s.(quizFinished := true)
    else
      s.(currentIndex := s.currentIndex + 1, selectedAnswer := None, showFeedback := false)
  }

  /** Presses left before the quiz is over, counting a confirm and an advance per question. */
  function StepsLeft(bank: seq<Question>, s: QuizState): nat
    requires Inv(bank, s)
  {
    if s.quizFinished then 0
    else 2 * (|bank| - s.currentIndex) - (if s.showFeedback then 1 else 0)
  }

  /**
   * The main button: enabled only while an answer is selected, it confirms
   * when no feedback is shown and advances otherwise.  Every press keeps the
   * invariant, never adds a life and brings the end of the quiz closer.
   */
  function PressStep(bank: seq<Question>, s: QuizState): (t: QuizState)
    requires Inv(bank, s) && !s.quizFinished && s.selectedAnswer.Some?
    ensures Inv(bank, t)
    ensures t.lives <= s.lives
    ensures StepsLeft(bank, t) < StepsLeft(bank, s)
  {
    if !s.showFeedback then ConfirmStep(bank, s) else AdvanceStep(bank, s)
  }

  /** The restart button of the results screen: every variable back to its start value. */
  function RestartStep(bank: seq<Question>, s: QuizState): (t: QuizState)
    requires Inv(bank, s) && s.quizFinished
    ensures Inv(bank, t) && PhaseOf(t) == Answering
    ensures t.currentIndex == 0 && t.score == 0 && t.lives == MaxLives
    ensures t.selectedAnswer == None && !t.showFeedback && !t.quizFinished
  {
    Initial
  }

  /** The clicks the quiz screen reacts to. */
  datatype Click = ClickOption(i: int) | ClickMain | ClickRestart

  /**
   * One click.  A click the screen does not offer in the current state (an
   * option while the results are shown, the main button while it is
   * disabled, restart while the quiz runs) changes nothing.
   */
  function Step(bank: seq<Question>, s: QuizState, c: Click): (t: QuizState)
    requires Inv(bank, s)
    ensures Inv(bank, t)
    ensures !c.ClickRestart? ==> t.lives <= s.lives
    ensures c.ClickRestart? && s.quizFinished ==> t == Initial
  {
    match c
    case ClickOption(i) =>
      if !s.quizFinished && 0 <= i < |bank[s.currentIndex].options| then SelectStep(bank, s, i) else s
    case ClickMain =>
      if !s.quizFinished && s.selectedAnswer.Some? then PressStep(bank, s) else s
    case ClickRestart =>
      if s.quizFinished then RestartStep(bank, s) else s
  }

  /** The state after a sequence of clicks on a freshly opened screen. */
  function Run(bank: seq<Question>, clicks: seq<Click>): (s: QuizState)
    requires WellFormedBank(bank)
    ensures Inv(bank, s)
    decreases |clicks|
  {
    if clicks == [] then Initial
    else Step(bank, Run(bank, clicks[..|clicks| - 1]), clicks[|clicks| - 1])
  }

  /**
   * The counting law and the bounds hold in every reachable state, so the
   * question lookup `bank[currentIndex]` is always in bounds.
   */
  lemma CountingLaw(bank: seq<Question>, clicks: seq<Click>)
    requires WellFormedBank(bank)
    ensures var s := Run(bank, clicks);
      && 0 <= s.currentIndex < |bank|
      && 0 <= s.lives <= MaxLives
      && s.score + (MaxLives - s.lives) == s.currentIndex + (if s.showFeedback then 1 else 0)
  {
  }

  /** Without a restart, lives never go up: a later state has at most the lives of an earlier one. */
  lemma {:induction false} LivesNonIncreasing(bank: seq<Question>, clicks: seq<Click>, k: nat)
    requires WellFormedBank(bank) && k <= |clicks|
    requires forall j :: k <= j < |clicks| ==> !clicks[j].ClickRestart?
    ensures Run(bank, clicks).lives <= Run(bank, clicks[..k]).lives
    decreases |clicks|
  {
    if k < |clicks| {
      var init := clicks[..|clicks| - 1];
      assert init[..k] == clicks[..k];
      LivesNonIncreasing(bank, init, k);
    } else {
      assert clicks[..k] == clicks;
    }
  }

  // ---------------------------------------------------------------------------
  // Properties of the step functions
  // ---------------------------------------------------------------------------

  /** The score never exceeds the number of confirmed answers, and neither do the lives lost. */
  lemma ScoreBound(bank: seq<Question>, s: QuizState)
    requires Inv(bank, s)
    ensures 0 <= s.score <= s.currentIndex + 1
    ensures MaxLives - s.lives <= s.currentIndex + 1
  {
  }

  /** A confirm never meets an exhausted life budget: the press after losing the last life finishes. */
  lemma NoConfirmWithoutLives(bank: seq<Question>, s: QuizState)
    requires Inv(bank, s) && PhaseOf(s) == Answering
    ensures s.lives >= 1
  {
  }

  /** One full question: select answer `a`, confirm it, and advance. */
  function Cycle(bank: seq<Question>, s: QuizState, a: int): (t: QuizState)
    requires Inv(bank, s) && PhaseOf(s) == Answering
    requires 0 <= a < OptionsPerQuestion
    ensures Inv(bank, t) && PhaseOf(t) != Feedback
    ensures t.lives <= s.lives
    ensures !t.quizFinished ==> t.currentIndex == s.currentIndex + 1
  {
    AdvanceStep(bank, ConfirmStep(bank, SelectStep(bank, s, a)))
  }

  predicate ValidAnswers(answers: seq<int>)
  {
    forall k :: 0 <= k < |answers| ==> 0 <= answers[k] < OptionsPerQuestion
  }

  /**
   * Play the quiz with one chosen answer per question, in order, until the
   * answers run out or the quiz is over.
   */
  function Play(bank: seq<Question>, s: QuizState, answers: seq<int>): (r: QuizState)
    requires Inv(bank, s) && PhaseOf(s) != Feedback && ValidAnswers(answers)
    ensures Inv(bank, r) && PhaseOf(r) != Feedback
    ensures r.lives <= s.lives
    ensures r.currentIndex >= s.currentIndex
    decreases |answers|
  {
    if s.quizFinished || |answers| == 0 then s
    else Play(bank, Cycle(bank, s, answers[0]), answers[1..])
  }

  /** Termination: a quiz over `n` questions is over after at most `n` questions have been answered. */
  lemma {:induction false} PlayFinishes(bank: seq<Question>, s: QuizState, answers: seq<int>)
    requires Inv(bank, s) && PhaseOf(s) != Feedback && ValidAnswers(answers)
    requires |answers| >= |bank| - s.currentIndex
    ensures Play(bank, s, answers).quizFinished
    decreases |answers|
  {
    if !s.quizFinished {
      var t := Cycle(bank, s, answers[0]);
      if !t.quizFinished {
        PlayFinishes(bank, t, answers[1..]);
      }
    }
  }

  /** The quiz is over before its last question only when every life is spent. */
  lemma EarlyFinishMeansNoLives(bank: seq<Question>, s: QuizState)
    requires Inv(bank, s) && s.quizFinished && s.currentIndex < |bank| - 1
    ensures s.lives == 0
  {
  }

  /** Answering every remaining question right ends the quiz with a full score and all lives. */
  lemma {:induction false} PlayAllCorrect(bank: seq<Question>, s: QuizState, answers: seq<int>)
    requires Inv(bank, s) && PhaseOf(s) == Answering && s.lives == MaxLives
    requires |answers| == |bank| - s.currentIndex
    requires forall k :: 0 <= k < |answers| ==> answers[k] == bank[s.currentIndex + k].correctIndex
    ensures ValidAnswers(answers)
    ensures Play(bank, s, answers).quizFinished
    ensures Play(bank, s, answers).score == |bank|
    ensures Play(bank, s, answers).lives == MaxLives
    decreases |answers|
  {
    assert ValidAnswers(answers) by {
      forall k | 0 <= k < |answers| ensures 0 <= answers[k] < OptionsPerQuestion {
        assert WellFormedQuestion(bank[s.currentIndex + k]);
      }
    }
    var t := Cycle(bank, s, answers[0]);
    assert IsCorrect(bank, SelectStep(bank, s, answers[0]));
    if !t.quizFinished {
      assert forall k :: 0 <= k < |answers[1..]| ==> answers[1..][k] == bank[t.currentIndex + k].correctIndex by {
        forall k | 0 <= k < |answers[1..]|
          ensures answers[1..][k] == bank[t.currentIndex + k].correctIndex
        {
          assert answers[1..][k] == answers[k + 1];
        }
      }
      PlayAllCorrect(bank, t, answers[1..]);
    }
  }

  // ---------------------------------------------------------------------------
  // The results screen
  // ---------------------------------------------------------------------------

  /** Kotlin's `Int` division: the quotient is truncated toward zero. */
  function KotlinDiv(a: int, b: int): (q: int)
    requires b > 0
    ensures a >= 0 ==> 0 <= q * b <= a < q * b + b
    ensures a < 0 ==> q * b - b < a <= q * b <= 0
  {
    if a >= 0 then DivBounds(a, b); a / b
    else DivBounds(-a, b); -((-a) / b)
  }

  /** Dafny's `/` on a non-negative dividend and a positive divisor is the floor. */
  lemma DivBounds(a: int, b: int)
    requires a >= 0 && b > 0
    ensures 0 <= (a / b) * b <= a < (a / b) * b + b
  {
    var q, r := a / b, a % b;
    assert a == q * b + r && 0 <= r < b;
    assert q >= 0 by {
      if q < 0 {
        MulMonotone(q, -1, b);
      }
    }
    MulMonotone(0, q, b);
  }

  /** The final percentage, truncated rather than rounded. */
  function Percentage(score: int, total: int): (p: int)
    requires total > 0
    ensures 0 <= score ==> p * total <= score * 100 < p * total + total
    ensures 0 <= score <= total ==> 0 <= p <= 100
  {
    KotlinDiv(score * 100, total)
  }

  /** The grade bucket the results screen shows an emoji for. */
  datatype Tier = Low | Mid | High

  function Rank(t: Tier): nat
  {
    match t
    case Low => 0
    case Mid => 1
    case High => 2
  }

  function TierOf(p: int): (t: Tier)
    ensures t == High <==> p >= 80
    ensures t == Mid <==> 50 <= p < 80
    ensures t == Low <==> p < 50
  {
    if p >= 80 then High else if p >= 50 then Mid else Low
  }

  /** A higher score never earns a lower tier. */
  lemma TierMonotone(a: int, b: int, total: int)
    requires total > 0 && 0 <= a <= b
    ensures Percentage(a, total) <= Percentage(b, total)
    ensures Rank(TierOf(Percentage(a, total))) <= Rank(TierOf(Percentage(b, total)))
  {
    var pa, pb := Percentage(a, total), Percentage(b, total);
    if pa > pb {
      MulMonotone(pb + 1, pa, total);
      assert false;
    }
  }

  lemma MulMonotone(x: int, y: int, n: int)
    requires x <= y && n > 0
    ensures x * n <= y * n
  {
  }

  // ---------------------------------------------------------------------------
  // The screen, updated in place
  // ---------------------------------------------------------------------------

  /** The quiz screen: the bank and the six state variables its click handlers assign. */
  class Quiz {
    const questions: seq<Question>
    var currentIndex: int
    var selectedAnswer: Option<int>
    var score: int
    var showFeedback: bool
    var lives: int
    var quizFinished: bool

    function State(): QuizState
      reads this
    {
      QuizState(currentIndex, selectedAnswer, score, showFeedback, lives, quizFinished)
    }

    ghost predicate Valid()
      reads this
    {
      Inv(questions, State())
    }

    constructor ()
      ensures Valid() && questions == Bank()
      ensures State() == Initial
    {
      questions := Bank();
      currentIndex := 0;
      selectedAnswer := None;
      score := 0;
      showFeedback := false;
      lives := MaxLives;
      quizFinished := false;
    }

    /** The question on screen; the index is always in bounds. */
    function CurrentQuestion(): (q: Question)
      reads this
      requires Valid()
      ensures q == questions[currentIndex] && WellFormedQuestion(q)
    {
      questions[currentIndex]
    }

    method Select(i: int)
      requires Valid() && !quizFinished
      requires 0 <= i < |questions[currentIndex].options|
      modifies this
      ensures Valid()
      ensures State() == SelectStep(questions, old(State()), i)
    {
      if !showFeedback {
        selectedAnswer := Some(i);
      }
    }

    method Confirm()
      requires Valid() && !quizFinished && !showFeedback && selectedAnswer.Some?
      modifies this
      ensures Valid()
      ensures State() == ConfirmStep(questions, old(State()))
    {
      if selectedAnswer == Some(questions[currentIndex].correctIndex) {
        score := score + 1;
      } else {
        lives := lives - 1;
      }
      showFeedback := true;
    }

    method Advance()
      requires Valid() && !quizFinished && showFeedback
      modifies this
      ensures Valid()
      ensures State() == AdvanceStep(questions, old(State()))
    {
      if lives == 0 || currentIndex == |questions| - 1 {
        quizFinished := true;
      } else {
        currentIndex := currentIndex + 1;
        selectedAnswer := None;
        showFeedback := false;
      }
    }

    /** The main button, enabled only while an answer is selected. */
    method Press()
      requires Valid() && !quizFinished && selectedAnswer.Some?
      modifies this
      ensures Valid()
      ensures State() == PressStep(questions, old(State()))
    {
      if !showFeedback {
        Confirm();
      } else {
        Advance();
      }
    }

    method Restart()
      requires Valid() && quizFinished
      modifies this
      ensures Valid()
      ensures State() == RestartStep(questions, old(State()))
    {
      currentIndex := 0;
      score := 0;
      lives := MaxLives;
      selectedAnswer := None;
      showFeedback := false;
      quizFinished := false;
    }

    /** The results screen's percentage and tier. */
    method Results() returns (percentage: int, tier: Tier)
      requires Valid() && quizFinished
      ensures 0 <= percentage <= 100
      ensures percentage * |questions| <= score * 100 < percentage * |questions| + |questions|
      ensures tier == TierOf(percentage)
    {
      ScoreBound(questions, State());
      percentage := Percentage(score, |questions|);
      tier := TierOf(percentage);
    }
  }
}
