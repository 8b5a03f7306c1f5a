/**
 * Answering lab questions (App.tsx `LabView`): the answers typed or
 * selected so far, the feedback shown per question, and `checkAnswer`,
 * which grades one answer, shows the verdict and records the outcome.
 */
module LabView {
  import opened Wrappers
  import opened Types
  import Strings
  import Progress

  /** The one expected phrase for every CODE question. */
  const ExpectedCodeAnswer := "transport layer"

  /** `answers[questionId]`: the stored answer, `None` (for `undefined`) exactly when there is none. */
  function Lookup(answers: map<string, string>, questionId: string): (r: Option<string>)
    ensures r.None? <==> questionId !in answers
    ensures r.Some? ==> r.value == answers[questionId]
  {
    if questionId in answers then Some(answers[questionId]) else None
  }

  /**
   * The verdict of `checkAnswer` for the current answer. A CODE question
   * with no answer yields `undefined` in App.tsx, which every
   * later use treats as false; here it is false.
   */
  function IsCorrect(q: LabQuestion, answer: Option<string>): (b: bool)
    ensures answer.None? ==> !b
  {
    match q
    case McqQuestion(_, _, _, correctOptionId, _) => answer == Some(correctOptionId)
    case CodeQuestion(_, _, _, _) =>
      answer.Some? && Strings.Includes(Strings.ToLower(answer.value), ExpectedCodeAnswer)
  }

  /** A multiple-choice answer is correct iff it is the correct option id; any other id is wrong. */
  lemma McqGrading(q: LabQuestion, optionId: string)
    requires q.McqQuestion?
    ensures IsCorrect(q, Some(optionId)) <==> optionId == q.correctOptionId
  {
  }

  /**
   * Every CODE question is graded by the same test: the lower-cased answer
   * contains "transport layer". Neither the question text nor its
   * placeholder plays a part.
   */
  lemma CodeGradingIsUniform(q1: LabQuestion, q2: LabQuestion, answer: string)
    requires q1.CodeQuestion? && q2.CodeQuestion?
    ensures IsCorrect(q1, Some(answer)) == IsCorrect(q2, Some(answer))
    ensures IsCorrect(q1, Some(answer)) <==>
      exists i :: Strings.OccursAt(Strings.ToLower(answer), ExpectedCodeAnswer, i)
  {
  }

  /** An answer holding the phrase in any mix of upper and lower case is accepted. */
  lemma CodeAcceptsAnyCase(q: LabQuestion, before: string, phrase: string, after: string)
    requires q.CodeQuestion?
    requires Strings.ToLower(phrase) == ExpectedCodeAnswer
    ensures IsCorrect(q, Some(before + phrase + after))
  {
    var s := before + phrase + after;
    assert s[|before|..|before| + |phrase|] == phrase;
    assert Strings.OccursAt(s, phrase, |before|);
    Strings.LowerKeepsOccurrence(s, phrase, |before|);
  }

  /** "Transport Layer" lower-cases to the expected phrase. */
  lemma MixedCasePhraseLowers()
    ensures Strings.ToLower("Transport Layer") == ExpectedCodeAnswer
  {
  }

  /** "Transport Layer", in that mixed case, is accepted inside a longer answer. */
  lemma CodeAcceptsExample(q: LabQuestion)
    requires q.CodeQuestion?
    ensures IsCorrect(q, Some("The " + "Transport Layer"))
  {
    MixedCasePhraseLowers();
    CodeAcceptsAnyCase(q, "The ", "Transport Layer", "");
    assert "The " + "Transport Layer" + "" == "The " + "Transport Layer";
  }

  /** An unrelated answer is refused. */
  lemma CodeRefusesExample(q: LabQuestion)
    requires q.CodeQuestion?
    ensures !IsCorrect(q, Some("Network Layer"))
  {
  }

  /** What the panel under a question shows; `correct` is absent until the first check. */
  datatype Feedback = Feedback(correct: Option<bool>, show: bool)

  class LabSession {
    var answers: map<string, string>
    var feedback: map<string, Feedback>
    /** Where `onUpdateProgress` records outcomes. */
    const store: Progress.ProgressStore

    constructor (store: Progress.ProgressStore)
      ensures answers == map[] && feedback == map[] && this.store == store
    {
      answers := map[];
      feedback := map[];
      this.store := store;
    }

    /** `handleMCQSelect`: remember the option and hide the question's feedback. */
    method HandleMcqSelect(questionId: string, optionId: string)
      modifies this
      ensures answers == old(answers)[questionId := optionId]
      ensures feedback == old(feedback)[questionId :=
        Feedback(if questionId in old(feedback) then old(feedback)[questionId].correct else None, false)]
    {
      answers := answers[questionId := optionId];
      var earlier := if questionId in feedback then feedback[questionId].correct else None;
      feedback := feedback[questionId := Feedback(earlier, false)];
    }

    /** `handleCodeChange`: remember the text; the feedback stays as it was. */
    method HandleCodeChange(questionId: string, code: string)
      modifies this
      ensures answers == old(answers)[questionId := code]
      ensures feedback == old(feedback)
    {
      answers := answers[questionId := code];
    }

    /**
     * `checkAnswer`: grade the current answer, show the verdict, and record
     * exactly one outcome for this question, the same verdict.
     */
    method CheckAnswer(q: LabQuestion)
      modifies this, store
      ensures answers == old(answers)
      ensures feedback == old(feedback)[q.id := Feedback(Some(IsCorrect(q, Lookup(old(answers), q.id))), true)]
      ensures store.progress == Progress.Recorded(old(store.progress), q.id, IsCorrect(q, Lookup(old(answers), q.id)))
    {
      var isCorrect := false;
      match q {
        case McqQuestion(_, _, _, correctOptionId, _) =>
          isCorrect := q.id in answers && answers[q.id] == correctOptionId;
        case CodeQuestion(_, _, _, _) =>
          if q.id in answers {
            isCorrect := Strings.Includes(Strings.ToLower(answers[q.id]), ExpectedCodeAnswer);
          }
      }
      feedback := feedback[q.id := Feedback(Some(isCorrect), true)];
      store.RecordOutcome(q.id, isCorrect);
    }
  }
}
