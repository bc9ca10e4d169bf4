/**
 * The quiz screen (app/quiz/page.tsx) as a state machine. Its React state
 * becomes the fields of QuizPage; each handler becomes a method, and each
 * firing of a `setTimeout` callback becomes one call of TimerFires.
 */
module Quiz {
  import opened Wrappers
  import opened Answers
  import opened Storage

  /** The route `finishQuiz` navigates to. */
  const ThankYouRoute: string := "/obrigado"

  /** The timer callback that is waiting to fire, if any. */
  datatype Timer =
    | NoTimer
      /** The 400 ms callback of `handleAnswer`; it captured `currentQuestion` and `updatedAnswers`. */
    | AfterAnswer(question: int, updated: QuizAnswer)
      /** The 400 ms callback of `prevQuestion`. */
    | AfterBack
      /** The 100 ms callback that fades the next question in. */
    | FadeIn

  class QuizPage {
    var currentQuestion: int
    var answers: QuizAnswer
    var isTransitioning: bool
    var isVisible: bool
    var timer: Timer
    /** The target of `router.push`, once called. */
    var route: Option<string>
    const storage: LocalStorage

    /**
     * The index stays in 1..6; the card is visible exactly when no transition
     * runs; a transition runs exactly while a timer is pending, until the quiz
     * has navigated away (then it stays on question 6 with the transition flag set).
     */
    ghost predicate Valid()
      reads this
    {
      && 1 <= currentQuestion <= 6
      && isVisible == !isTransitioning
      && (timer.AfterAnswer? ==> timer.question == currentQuestion && timer.updated == answers)
      && (timer.AfterBack? ==> currentQuestion > 1)
      && (route.None? ==> (isTransitioning <==> !timer.NoTimer?))
      && (route.Some? ==> route == Some(ThankYouRoute) && timer.NoTimer? && isTransitioning && currentQuestion == 6)
    }

    /** Mounting the screen: question 1, an empty record, nothing read from storage. */
    constructor (storage: LocalStorage)
      ensures Valid() && this.storage == storage
      ensures currentQuestion == 1 && answers == Empty
      ensures !isTransitioning && isVisible && timer == NoTimer && route == None
    {
      this.storage := storage;
      currentQuestion := 1;
      answers := Empty;
      isTransitioning := false;
      isVisible := true;
      timer := NoTimer;
      route := None;
    }

    /** `questions[currentQuestion - 1]`: always in bounds, and it is the current question's entry. */
    function CurrentQuestionData(): (q: Question)
      reads this
      requires Valid()
      ensures q.id == currentQuestion
    {
      QuestionData(currentQuestion)
    }

    /**
     * `handleAnswer(value)`: ignored during a transition; otherwise stores the
     * value under the current question's key, writes the whole record to the
     * slot, starts the fade-out and schedules the 400 ms callback.
     */
    method HandleAnswer(value: string)
      requires Valid()
      modifies this, storage
      ensures Valid()
      ensures old(isTransitioning) ==> unchanged(this) && unchanged(storage)
      ensures !old(isTransitioning) ==>
        && answers == old(answers).With(old(currentQuestion), value)
        && storage.quizAnswers == Some(Serialized(answers))
        && isTransitioning && !isVisible
        && currentQuestion == old(currentQuestion) && route == old(route)
        && timer == AfterAnswer(currentQuestion, answers)
    {
      if isTransitioning {
        return;
      }
      var updatedAnswers := answers.With(currentQuestion, value);
      answers := updatedAnswers;
      storage.quizAnswers := Some(Serialized(updatedAnswers));
      isTransitioning := true;
      isVisible := false;
      timer := AfterAnswer(currentQuestion, updatedAnswers);
    }

    /**
     * `prevQuestion()`: does nothing on question 1 or during a transition;
     * otherwise starts the fade-out and schedules the 400 ms step back.
     */
    method PrevQuestion()
      requires Valid()
      modifies this
      ensures Valid()
      ensures old(currentQuestion) == 1 || old(isTransitioning) ==> unchanged(this)
      ensures old(currentQuestion) > 1 && !old(isTransitioning) ==>
        && isTransitioning && !isVisible && timer == AfterBack
        && currentQuestion == old(currentQuestion) && answers == old(answers) && route == old(route)
    {
      if currentQuestion > 1 && !isTransitioning {
        isTransitioning := true;
        isVisible := false;
        timer := AfterBack;
      }
    }

    /**
     * `finishQuiz(finalAnswers)`, reached only from the 400 ms callback of the
     * sixth answer with the record it captured: writes the record to the slot
     * again and navigates to the thank-you route; the callback is spent.
     */
    method FinishQuiz(finalAnswers: QuizAnswer)
      requires Valid() && route.None?
      requires timer.AfterAnswer? && currentQuestion == 6 && finalAnswers == answers
      modifies this`route, this`timer, storage
      ensures Valid()
      ensures storage.quizAnswers == Some(Serialized(finalAnswers))
      ensures route == Some(ThankYouRoute) && timer == NoTimer
    {
      storage.quizAnswers := Some(Serialized(finalAnswers));
      route := Some(ThankYouRoute);
      timer := NoTimer;
    }

    /**
     * The pending timer callback fires. After an answer: below question 6 the
     * index rises by one and the fade-in is scheduled, at question 6 the quiz
     * finishes with the record the callback captured. After a step back: the
     * index falls by one and the fade-in is scheduled. The fade-in shows the
     * card and ends the transition. With no timer pending, nothing happens.
     * Only the slot write of `finishQuiz` touches storage; answers never change.
     */
    method TimerFires()
      requires Valid()
      modifies this, storage
      ensures Valid()
      ensures answers == old(answers)
      ensures old(timer).NoTimer? ==> unchanged(this) && unchanged(storage)
      ensures old(timer).AfterAnswer? && old(currentQuestion) < 6 ==>
        && currentQuestion == old(currentQuestion) + 1
        && isTransitioning && !isVisible && timer == FadeIn
        && route == old(route) && unchanged(storage)
      ensures old(timer).AfterAnswer? && old(currentQuestion) == 6 ==>
        && storage.quizAnswers == Some(Serialized(old(answers)))
        && route == Some(ThankYouRoute)
        && currentQuestion == 6 && isTransitioning && timer == NoTimer
      ensures old(timer).AfterBack? ==>
        && currentQuestion == old(currentQuestion) - 1
        && isTransitioning && !isVisible && timer == FadeIn
        && route == old(route) && unchanged(storage)
      ensures old(timer).FadeIn? ==>
        && currentQuestion == old(currentQuestion)
        && !isTransitioning && isVisible && timer == NoTimer
        && route == old(route) && unchanged(storage)
    {
      match timer
      case NoTimer =>
      case AfterAnswer(question, updated) =>
        if question < 6 {
          currentQuestion := currentQuestion + 1;
          timer := FadeIn;
        } else {
          FinishQuiz(updated);
        }
      case AfterBack =>
        currentQuestion := currentQuestion - 1;
        timer := FadeIn;
      case FadeIn =>
        isVisible := true;
        isTransitioning := false;
        timer := NoTimer;
    }
  }

  /**
   * A visitor answers the six questions in order, letting every timer fire,
   * starting from whatever an earlier visit left in the slot. The quiz ends on
   * the thank-you route and the slot holds exactly the six answers given.
   */
  method CompleteQuiz(stale: Option<SlotText>, values: seq<string>)
    returns (slot: Option<SlotText>, route: Option<string>, question: int)
    requires |values| == 6
    ensures route == Some(ThankYouRoute) && question == 6
    ensures slot.Some? && slot.value.Serialized?
    ensures forall k: QuestionNumber :: slot.value.record.Get(k) == Some(values[k - 1])
  {
    var storage := new LocalStorage(stale);
    var page := new QuizPage(storage);
    var i := 0;
    while i < 6
      invariant 0 <= i <= 6
      invariant page.Valid() && page.storage == storage
      invariant i < 6 ==> page.currentQuestion == i + 1 && !page.isTransitioning && page.route.None?
      invariant i == 6 ==> page.route == Some(ThankYouRoute) && page.currentQuestion == 6
      invariant forall k: QuestionNumber :: k <= i ==> page.answers.Get(k) == Some(values[k - 1])
      invariant forall k: QuestionNumber :: k > i ==> page.answers.Get(k) == None
      invariant i > 0 ==> storage.quizAnswers == Some(Serialized(page.answers))
    {
      page.HandleAnswer(values[i]);
      page.TimerFires();
      if i < 5 {
        page.TimerFires();
      }
      i := i + 1;
    }
    slot, route, question := storage.quizAnswers, page.route, page.currentQuestion;
  }
}
