/**
 * The quiz page: one player's session over a question list, its handlers
 * (start, answer, timer tick, next question, try again) and the save of the
 * finished attempt. React's state setters become assignments to the
 * session's fields; the page's database is the `db` field.
 */
module QuizSession {
  import opened Wrappers
  import opened JsText
  import opened Questions
  import opened AttemptStore

  class Session {
    /** The question list (`sampleQuestions` in the application). */
    const questions: seq<Question>
    var playerName: string
    var started: bool
    var currentQuestion: int
    var score: int
    var timeLeft: int
    var showResults: bool
    /** The free-form buffer behind the numeric input. */
    var integerAnswer: string
    /** The on-device database, as the quiz page sees it. */
    var db: Database
    /** How many times `saveAttempt` ran since the current run began. */
    ghost var savesThisRun: nat

    ghost predicate Valid()
      reads this
    {
      |questions| > 0 &&
      0 <= currentQuestion < |questions| &&
      // every point scored was scored on a question already left behind,
      // or on the last one once the results are shown
      0 <= score <= currentQuestion + (if showResults then 1 else 0) &&
      1 <= timeLeft <= QuestionTime &&
      (showResults ==> started && currentQuestion == |questions| - 1) &&
      (!started ==> currentQuestion == 0 && score == 0 && !showResults) &&
      // a run saves once, when it finishes, and never before
      savesThisRun == (if showResults then 1 else 0) &&
      Consistent(db)
    }

    /** The question screen is showing, so the answer controls and the interval timer are live. */
    predicate InProgress()
      reads this
    {
      started && !showResults
    }

    predicate OnLastQuestion()
      reads this
    {
      currentQuestion == |questions| - 1
    }

    /** The Start button is enabled only while the trimmed name is not empty. */
    predicate StartEnabled()
      reads this
    {
      Trim(playerName) != []
    }

    /** The Submit button is enabled only while the numeric input is not empty. */
    predicate SubmitEnabled()
      reads this
    {
      integerAnswer != []
    }

    function Current(): Question
      reads this
      requires 0 <= currentQuestion < |questions|
    {
      questions[currentQuestion]
    }

    /**
     * The run just ended on question `q`: results shown, and `saveAttempt`
     * ran once with the final score over the database as it was. By
     * `AttemptStore.SaveAttempt` that stores one record exactly when storage
     * is available and the database has, or gets, its `attempts` store.
     */
    ghost predicate Finished(q: int, t: int, before: Database, now: int, available: bool)
      reads this
    {
      showResults && currentQuestion == q && timeLeft == t && Consistent(before) &&
      db == AttemptStore.SaveAttempt(before, AttemptData(playerName, now, score, |questions|), available)
    }

    /** The run moved from question `q` to the next one with a fresh countdown and saved nothing. */
    ghost predicate MovedOn(q: int, before: Database)
      reads this
    {
      !showResults && currentQuestion == q + 1 && timeLeft == QuestionTime && db == before
    }

    /** The page as first rendered. */
    constructor (questions: seq<Question>, db: Database)
      requires |questions| > 0 && Consistent(db)
      ensures Valid() && this.questions == questions && this.db == db
      ensures playerName == "" && !started && currentQuestion == 0 && score == 0
      ensures timeLeft == QuestionTime && !showResults && integerAnswer == ""
    {
      this.questions := questions;
      playerName := "";
      started := false;
      currentQuestion := 0;
      score := 0;
      timeLeft := QuestionTime;
      showResults := false;
      integerAnswer := "";
      this.db := db;
      savesThisRun := 0;
    }

    /** Typing in the name field, which only the start screen shows. */
    method EditName(name: string)
      requires Valid() && !started
      modifies this`playerName
      ensures Valid() && playerName == name
    {
      playerName := name;
    }

    /**
     * `handleStartQuiz`, behind a button that is disabled for a blank name.
     * It does not reset the index, the score or the buffer itself: the
     * start screen is only reachable with those already at their initial
     * values, so a started session always begins on question 0 with score 0.
     */
    method Start()
      requires Valid() && !started
      modifies this`started, this`timeLeft
      ensures Valid()
      ensures started <==> old(Trim(playerName)) != []
      ensures started ==> currentQuestion == 0 && score == 0 && timeLeft == QuestionTime && !showResults
      ensures !started ==> timeLeft == old(timeLeft)
    {
      if StartEnabled() {
        started := true;
        timeLeft := QuestionTime;
      }
    }

    /**
     * `handleNextQuestion`: move on unless this is already the last question.
     * Called only from the handlers (`ConcludeAnswer`, `Tick`); on its own it
     * may leave `Valid()` false.
     */
    method NextQuestion()
      requires 0 <= currentQuestion < |questions|
      modifies this`currentQuestion, this`timeLeft
      ensures 0 <= currentQuestion < |questions|
      ensures old(currentQuestion) < |questions| - 1 ==>
        currentQuestion == old(currentQuestion) + 1 && timeLeft == QuestionTime
      ensures old(currentQuestion) == |questions| - 1 ==>
        currentQuestion == old(currentQuestion) && timeLeft == old(timeLeft)
    {
      if currentQuestion < |questions| - 1 {
        currentQuestion := currentQuestion + 1;
        timeLeft := QuestionTime;
      }
    }

    /**
     * `saveAttempt`: the given score and the question count, under the
     * player's name. Called only from `ConcludeAnswer` on the last question;
     * on its own it may leave `Valid()` false (a second save in one run).
     */
    method SaveAttempt(finalScore: int, now: int, available: bool)
      requires Consistent(db)
      modifies this`db, this`savesThisRun
      ensures db == AttemptStore.SaveAttempt(old(db), AttemptData(playerName, now, finalScore, |questions|), available)
      ensures savesThisRun == old(savesThisRun) + 1
    {
      db := AttemptStore.SaveAttempt(db, AttemptData(playerName, now, finalScore, |questions|), available);
      savesThisRun := savesThisRun + 1;
    }

    /**
     * The branch structure `handleMCQAnswer` and `handleIntegerAnswer` share:
     * a right answer scores one point; on the last question the attempt is
     * saved with the score including that point and the results are shown,
     * otherwise the quiz moves on.
     */
    method ConcludeAnswer(correct: bool, now: int, available: bool)
      requires Valid() && InProgress()
      modifies this`score, this`currentQuestion, this`timeLeft, this`showResults, this`db, this`savesThisRun
      ensures Valid() && started
      ensures score == old(score) + (if correct then 1 else 0)
      ensures old(OnLastQuestion()) ==> Finished(old(currentQuestion), old(timeLeft), old(db), now, available)
      ensures !old(OnLastQuestion()) ==> MovedOn(old(currentQuestion), old(db))
    {
      var isLastQuestion := currentQuestion == |questions| - 1;
      // the handler's closure sees the score of the last render
      var rendered := score;
      if correct {
        if isLastQuestion {
          score := rendered + 1;
          SaveAttempt(rendered + 1, now, available);
          showResults := true;
        } else {
          score := rendered + 1;
          NextQuestion();
        }
      } else if isLastQuestion {
        SaveAttempt(rendered, now, available);
        showResults := true;
      } else {
        NextQuestion();
      }
    }

    /**
     * `handleMCQAnswer(selected)`, from the button of option `selected` (the
     * page renders one per option): right when `selected` is the answer key.
     */
    method AnswerChoice(selected: int, now: int, available: bool)
      requires Valid() && InProgress() && Current().MultipleChoice?
      requires 0 <= selected < |Current().options|
      modifies this`score, this`currentQuestion, this`timeLeft, this`showResults, this`db, this`savesThisRun
      ensures Valid() && started
      ensures score == old(score) + (if selected == old(Current()).correctAnswer then 1 else 0)
      ensures old(OnLastQuestion()) ==> Finished(old(currentQuestion), old(timeLeft), old(db), now, available)
      ensures !old(OnLastQuestion()) ==> MovedOn(old(currentQuestion), old(db))
    {
      var question := questions[currentQuestion];
      ConcludeAnswer(question.correctAnswer == selected, now, available);
    }

    /** Typing in the numeric input, which the question screen shows for an integer question. */
    method EditIntegerAnswer(text: string)
      requires Valid() && InProgress() && Current().IntegerAnswer?
      modifies this`integerAnswer
      ensures Valid() && integerAnswer == text
    {
      integerAnswer := text;
    }

    /**
     * `handleIntegerAnswer`, behind a Submit button that is disabled while the
     * buffer is empty: `parseInt(buffer)` must equal the expected number
     * (`NaN` never does), scoring and finishing as for a multiple-choice
     * answer; the buffer is cleared afterwards in every case.
     */
    method SubmitIntegerAnswer(now: int, available: bool)
      requires Valid() && InProgress() && Current().IntegerAnswer?
      modifies this`score, this`currentQuestion, this`timeLeft, this`showResults, this`db, this`savesThisRun,
        this`integerAnswer
      ensures Valid() && started
      ensures !old(SubmitEnabled()) ==> unchanged(this)
      ensures old(SubmitEnabled()) ==>
        integerAnswer == "" &&
        score == old(score) + (if ParseInt(old(integerAnswer)) == Some(old(Current()).correctAnswer) then 1 else 0) &&
        (old(OnLastQuestion()) ==> Finished(old(currentQuestion), old(timeLeft), old(db), now, available)) &&
        (!old(OnLastQuestion()) ==> MovedOn(old(currentQuestion), old(db)))
    {
      if !SubmitEnabled() {
        return;
      }
      var question := questions[currentQuestion];
      ConcludeAnswer(ParseInt(integerAnswer) == Some(question.correctAnswer), now, available);
      integerAnswer := "";
    }

    /**
     * One firing of the one-second interval, which runs only on the question
     * screen. Above one second it counts down; otherwise it calls
     * `handleNextQuestion` and sets 30. On the last question that call does
     * nothing, so a time-out there never ends the run: the countdown just
     * starts again. A time-out scores nothing and saves nothing.
     */
    method Tick()
      requires Valid() && InProgress()
      modifies this`currentQuestion, this`timeLeft
      ensures Valid() && InProgress()
      ensures score == old(score) && db == old(db)
      ensures old(timeLeft) > 1 ==> timeLeft == old(timeLeft) - 1 && currentQuestion == old(currentQuestion)
      ensures old(timeLeft) <= 1 ==>
        timeLeft == QuestionTime &&
        currentQuestion == (if old(OnLastQuestion()) then old(currentQuestion) else old(currentQuestion) + 1)
    {
      if timeLeft <= 1 {
        NextQuestion();
        timeLeft := QuestionTime;
      } else {
        timeLeft := timeLeft - 1;
      }
    }

    /**
     * "Try Again" on the results screen: back to the start screen with
     * question 0 and score 0. The stored history, the name, the countdown
     * and the buffer are left as they are.
     */
    method TryAgain()
      requires Valid() && showResults
      modifies this`started, this`currentQuestion, this`score, this`showResults, this`savesThisRun
      ensures Valid()
      ensures !started && currentQuestion == 0 && score == 0 && !showResults
      ensures db == old(db) && playerName == old(playerName)
      ensures timeLeft == old(timeLeft) && integerAnswer == old(integerAnswer)
    {
      started := false;
      currentQuestion := 0;
      score := 0;
      showResults := false;
      savesThisRun := 0;
    }
  }

  /** A fresh page over the device's database: the name is typed in and Start is pressed. */
  method BeginRun(questions: seq<Question>, name: string, db: Database) returns (s: Session)
    requires |questions| > 0 && Trim(name) != [] && Consistent(db)
    ensures fresh(s) && s.Valid() && s.InProgress() && s.questions == questions
    ensures s.currentQuestion == 0 && s.score == 0 && s.timeLeft == QuestionTime
    ensures s.playerName == name && s.db == db
  {
    s := new Session(questions, db);
    s.EditName(name);
    s.Start();
  }

  /** A player who always gives the right answer to the current question. */
  method AnswerCorrectly(s: Session, now: int)
    requires s.Valid() && s.InProgress() && AnswerKeyInRange(s.Current())
    modifies s`score, s`currentQuestion, s`timeLeft, s`showResults, s`db, s`savesThisRun, s`integerAnswer
    ensures s.Valid() && s.started && s.playerName == old(s.playerName)
    ensures s.score == old(s.score) + 1
    ensures old(s.OnLastQuestion()) ==> s.Finished(old(s.currentQuestion), old(s.timeLeft), old(s.db), now, true)
    ensures !old(s.OnLastQuestion()) ==> s.MovedOn(old(s.currentQuestion), old(s.db))
  {
    var question := s.Current();
    if question.MultipleChoice? {
      s.AnswerChoice(question.correctAnswer, now, true);
    } else {
      TypeCorrectAnswer(s, now);
    }
  }

  /** Typing the right number, as `String` writes it, and submitting it. */
  method TypeCorrectAnswer(s: Session, now: int)
    requires s.Valid() && s.InProgress() && s.Current().IntegerAnswer?
    modifies s`score, s`currentQuestion, s`timeLeft, s`showResults, s`db, s`savesThisRun, s`integerAnswer
    ensures s.Valid() && s.started && s.playerName == old(s.playerName)
    ensures s.score == old(s.score) + 1
    ensures old(s.OnLastQuestion()) ==> s.Finished(old(s.currentQuestion), old(s.timeLeft), old(s.db), now, true)
    ensures !old(s.OnLastQuestion()) ==> s.MovedOn(old(s.currentQuestion), old(s.db))
  {
    var answer := s.Current().correctAnswer;
    var typed := IntToString(answer);
    ParseIntOfTypedAnswer(answer);
    ghost var before := (s.currentQuestion, s.timeLeft, s.score, s.db);
    s.EditIntegerAnswer(typed);
    assert (s.currentQuestion, s.timeLeft, s.score, s.db) == before;
    assert s.SubmitEnabled() && ParseInt(s.integerAnswer) == Some(s.Current().correctAnswer);
    s.SubmitIntegerAnswer(now, true);
  }

  /**
   * Every answer right, with storage available: the run ends with one call
   * of `saveAttempt` holding the full score, made over the database the page
   * started with.
   */
  method AnswerAll(questions: seq<Question>, name: string, now: int, db: Database) returns (after: Database)
    requires |questions| > 0 && AnswerKeysInRange(questions) && Trim(name) != [] && Consistent(db)
    ensures after == AttemptStore.SaveAttempt(db, AttemptData(name, now, |questions|, |questions|), true)
  {
    var s := BeginRun(questions, name, db);
    var i := 0;
    while i < |questions| - 1
      invariant 0 <= i <= |questions| - 1
      invariant s.Valid() && s.InProgress() && s.questions == questions
      invariant s.currentQuestion == i && s.score == i && s.playerName == name && s.db == db
    {
      AnswerCorrectly(s, now);
      i := i + 1;
    }
    AnswerCorrectly(s, now);
    after := s.db;
  }

  /**
   * Every answer right, starting from an empty device: exactly one attempt is
   * stored, with key 1, the player's name, the time of the last answer and
   * the full score (10 out of 10 for the sample questions).
   */
  method PerfectRun(questions: seq<Question>, name: string, now: int) returns (stored: seq<Attempt>)
    requires |questions| > 0 && AnswerKeysInRange(questions) && Trim(name) != []
    ensures stored == [Attempt(FirstKey, name, now, |questions|, |questions|)]
  {
    var after := AnswerAll(questions, name, now, NoDatabase);
    stored := after.records;
  }

  /** The application's own question list: a perfect run stores 10 out of 10. */
  method SamplePerfectRun(name: string, now: int) returns (stored: seq<Attempt>)
    requires Trim(name) != []
    ensures stored == [Attempt(FirstKey, name, now, 10, 10)]
  {
    SampleQuestionsWellFormed();
    stored := PerfectRun(SampleQuestions, name, now);
  }

  /**
   * Every answer right, after the history page was the first to open the
   * database on this device (it creates `quizDB` without the `attempts`
   * store): the save fails and nothing is stored.
   */
  method PerfectRunAfterHistory(questions: seq<Question>, name: string, now: int) returns (stored: seq<Attempt>)
    requires |questions| > 0 && AnswerKeysInRange(questions) && Trim(name) != []
    ensures stored == []
  {
    var after := AnswerAll(questions, name, now, Open(NoDatabase, false));
    stored := after.records;
  }

  /**
   * A full countdown with no answer: 29 ticks down to one second, then the
   * time-out, which moves to the next question (or, on the last question,
   * restarts its countdown).
   */
  method LetTimeRunOut(s: Session)
    requires s.Valid() && s.InProgress() && s.timeLeft == QuestionTime
    modifies s`currentQuestion, s`timeLeft
    ensures s.Valid() && s.InProgress() && s.timeLeft == QuestionTime
    ensures s.score == old(s.score) && s.db == old(s.db)
    ensures s.currentQuestion == (if old(s.OnLastQuestion()) then old(s.currentQuestion) else old(s.currentQuestion) + 1)
  {
    var t := 0;
    while t < QuestionTime - 1
      invariant 0 <= t <= QuestionTime - 1
      invariant s.Valid() && s.InProgress()
      invariant s.currentQuestion == old(s.currentQuestion) && s.score == old(s.score) && s.db == old(s.db)
      invariant s.timeLeft == QuestionTime - t
    {
      s.Tick();
      t := t + 1;
    }
    s.Tick();
  }

  /**
   * No answer ever given: after 29 countdown ticks and one time-out on each
   * question but the last, the session sits on the last question (after
   * 9 * 30 ticks for the sample questions), and however many
   * further ticks follow it never finishes, scores nothing and stores
   * nothing.
   */
  method IdleRun(questions: seq<Question>, name: string, extraTicks: nat)
    returns (index: int, finalScore: int, finished: bool, stored: seq<Attempt>)
    requires |questions| > 0 && Trim(name) != []
    ensures index == |questions| - 1 && finalScore == 0 && !finished && stored == []
  {
    var s := BeginRun(questions, name, NoDatabase);
    var q := 0;
    while q < |questions| - 1
      invariant 0 <= q <= |questions| - 1
      invariant s.Valid() && s.InProgress() && s.questions == questions
      invariant s.currentQuestion == q && s.score == 0 && s.timeLeft == QuestionTime && s.db == NoDatabase
    {
      LetTimeRunOut(s);
      q := q + 1;
    }
    var k := 0;
    while k < extraTicks
      invariant s.Valid() && s.InProgress() && s.questions == questions
      invariant s.currentQuestion == |questions| - 1 && s.score == 0 && s.db == NoDatabase
    {
      s.Tick();
      k := k + 1;
    }
    index, finalScore, finished, stored := s.currentQuestion, s.score, s.showResults, s.db.records;
  }
}
