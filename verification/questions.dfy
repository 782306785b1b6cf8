/** The two kinds of question and the fixed ten-question set of the quiz page. */
module Questions {

  /**
   * A multiple-choice question's `correctAnswer` is an index into `options`;
   * an integer question's is the number the player must type.
   */
  datatype Question =
    | MultipleChoice(id: int, prompt: string, options: seq<string>, correctAnswer: int)
    | IntegerAnswer(id: int, prompt: string, correctAnswer: int)

  /** Seconds a question is shown before the timer moves on. */
  const QuestionTime: int := 30

  /** `sampleQuestions`: five multiple-choice questions, then five integer questions. */
  const SampleQuestions: seq<Question> := [
    MultipleChoice(1, "Which planet is closest to the Sun?",
      ["Venus", "Mercury", "Earth", "Mars"], 1),
    MultipleChoice(2, "Which data structure organizes items in a First-In, First-Out (FIFO) manner?",
      ["Stack", "Queue", "Tree", "Graph"], 1),
    MultipleChoice(3, "Which of the following is primarily used for structuring web pages?",
      ["Python", "Java", "HTML", "C++"], 2),
    MultipleChoice(4, "Which chemical symbol stands for Gold?",
      ["Au", "Gd", "Ag", "Pt"], 0),
    MultipleChoice(5, "Which of these processes is not typically involved in refining petroleum?",
      ["Fractional distillation", "Cracking", "Polymerization", "Filtration"], 3),
    IntegerAnswer(6, "What is the value of 12 + 28?", 40),
    IntegerAnswer(7, "How many states are there in the United States?", 50),
    IntegerAnswer(8, "In which year was the Declaration of Independence signed?", 1776),
    IntegerAnswer(9, "What is the value of pi rounded to the nearest integer?", 3),
    IntegerAnswer(10, "If a car travels at 60 mph for 2 hours, how many miles does it travel?", 120)
  ]

  /** A multiple-choice answer key names one of its own options. */
  predicate AnswerKeyInRange(q: Question) {
    q.MultipleChoice? ==> 0 <= q.correctAnswer < |q.options|
  }

  /** Every multiple-choice answer key in `qs` names one of its options. */
  predicate AnswerKeysInRange(qs: seq<Question>) {
    forall i :: 0 <= i < |qs| ==> AnswerKeyInRange(qs[i])
  }

  /** A set the quiz can run on: not empty, ids distinct, answer keys in range. */
  predicate WellFormedQuestionSet(qs: seq<Question>) {
    |qs| > 0 &&
    (forall i, j :: 0 <= i < j < |qs| ==> qs[i].id != qs[j].id) &&
    AnswerKeysInRange(qs)
  }

  /** The ten sample questions form a set the quiz can run on, and the last one takes a typed integer. */
  lemma SampleQuestionsWellFormed()
    ensures WellFormedQuestionSet(SampleQuestions) && |SampleQuestions| == 10
    ensures forall i :: 0 <= i < 5 ==> SampleQuestions[i].MultipleChoice?
    ensures forall i :: 5 <= i < 10 ==> SampleQuestions[i].IntegerAnswer?
  {
    forall i, j | 0 <= i < j < |SampleQuestions|
      ensures SampleQuestions[i].id != SampleQuestions[j].id
    {
      assert forall k :: 0 <= k < 10 ==> SampleQuestions[k].id == k + 1;
    }
  }
}
