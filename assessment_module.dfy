/** The skill assessment session: a mixed session of rotation-aware
    questions followed by every demographic question, answered one at a
    time with Back and Next. Each answer is recorded by question id, its
    impact added to the score map and an attempt written to the question
    history; the last Next stores the scores and the answers. The question
    history and the stored items are fields. */
module AssessmentModule {
  import opened Common
  import opened Records
  import opened ScoreMaps
  import QuestionEngine

  /** The index of the intro screen. */
  const Intro: int := -1

  class AssessmentSession {
    var sessionQuestions: seq<Question>
    var currentIndex: int
    var answers: map<string, string>
    var scores: ScoreMap
    /** The stored question history the rotation reads. */
    var history: seq<QuestionEngine.Attempt>
    /** The stored `disha_skill_scores` and `disha_skill_answers` items. */
    var savedScores: Option<ScoreMap>
    var savedAnswers: Option<map<string, string>>

    /** The index is the intro screen or a question of the session (or 0 on
        an empty session). */
    predicate Valid()
      reads this
    {
      Intro <= currentIndex && (currentIndex <= 0 || currentIndex < |sessionQuestions|)
    }

    /** The mount effect: the mixed session, then the bank's demographic
        questions in bank order. */
    constructor(bank: seq<Question>, history: seq<QuestionEngine.Attempt>, pick: nat -> nat -> nat)
      ensures var demo := QuestionEngine.Pool(bank, Some(Demographic));
              && |demo| <= |sessionQuestions| <= |demo| + 15
              && sessionQuestions[|sessionQuestions| - |demo|..] == demo
              && forall i | 0 <= i < |sessionQuestions| - |demo| ::
                   sessionQuestions[i].category in {Cognitive, Academic, Sports}
      ensures forall q | q in sessionQuestions :: q in bank
      ensures currentIndex == Intro && answers == map[] && scores == []
      ensures this.history == history && savedScores == None && savedAnswers == None
      ensures Valid()
    {
      var mixed := QuestionEngine.GenerateMixedSession(bank, history, pick);
      var demo := QuestionEngine.Pool(bank, Some(Demographic));
      assert (mixed + demo)[|mixed|..] == demo;
      sessionQuestions := mixed + demo;
      currentIndex := Intro;
      answers := map[];
      scores := [];
      this.history := history;
      savedScores := None;
      savedAnswers := None;
    }

    /** `handleStart`: the first question. */
    method HandleStart()
      requires Valid()
      modifies this
      ensures currentIndex == 0 && Valid()
      ensures sessionQuestions == old(sessionQuestions) && answers == old(answers)
      ensures scores == old(scores) && history == old(history)
      ensures savedScores == old(savedScores) && savedAnswers == old(savedAnswers)
    {
      currentIndex := 0;
    }

    /** `handleAnswer`: the answer by question id, the impact added to the
        scores, and an attempt with the impact's value (0 without one)
        written to the history. */
    method HandleAnswer(questionId: string, value: string, impact: Option<Impact>)
      requires Valid()
      modifies this
      ensures answers == old(answers)[questionId := value]
      ensures impact.Some? ==> scores == AddImpact(old(scores), impact.value.category, impact.value.value)
      ensures impact.None? ==> scores == old(scores)
      ensures history == QuestionEngine.Recorded(old(history), QuestionEngine.Attempt(
                questionId, if impact.Some? then impact.value.value as real else 0.0))
      ensures sessionQuestions == old(sessionQuestions) && currentIndex == old(currentIndex)
      ensures savedScores == old(savedScores) && savedAnswers == old(savedAnswers)
      ensures Valid()
    {
      answers := answers[questionId := value];
      var score := 0.0;
      if impact.Some? {
        scores := AddImpact(scores, impact.value.category, impact.value.value);
        score := impact.value.value as real;
      }
      var saved := QuestionEngine.SaveAttempt(history, questionId, score);
      history := saved;
    }

    /** The Next button is enabled once the current question has a
        non-empty answer. */
    predicate CanGoNext()
      requires 0 <= currentIndex < |sessionQuestions|
      reads this
    {
      sessionQuestions[currentIndex].id in answers && answers[sessionQuestions[currentIndex].id] != ""
    }

    /** `handleNext`, reached only through the enabled Next button: the
        next question, or after the last one the scores and answers are
        stored (the report request that follows is not modelled). */
    method HandleNext()
      requires Valid()
      requires 0 <= currentIndex < |sessionQuestions| ==> CanGoNext()
      modifies this
      ensures old(currentIndex) < |sessionQuestions| - 1 ==>
                currentIndex == old(currentIndex) + 1
                && savedScores == old(savedScores) && savedAnswers == old(savedAnswers)
      ensures old(currentIndex) >= |sessionQuestions| - 1 ==>
                currentIndex == old(currentIndex)
                && savedScores == Some(scores) && savedAnswers == Some(answers)
      ensures sessionQuestions == old(sessionQuestions) && answers == old(answers)
      ensures scores == old(scores) && history == old(history)
      ensures Valid()
    {
      if currentIndex < |sessionQuestions| - 1 {
        currentIndex := currentIndex + 1;
      } else {
        savedScores := Some(scores);
        savedAnswers := Some(answers);
      }
    }

    /** `handlePrev`: the previous question, never back to the intro. */
    method HandlePrev()
      requires Valid()
      modifies this
      ensures old(currentIndex) > 0 ==> currentIndex == old(currentIndex) - 1
      ensures old(currentIndex) <= 0 ==> currentIndex == old(currentIndex)
      ensures sessionQuestions == old(sessionQuestions) && answers == old(answers)
      ensures scores == old(scores) && history == old(history)
      ensures savedScores == old(savedScores) && savedAnswers == old(savedAnswers)
      ensures Valid()
    {
      if currentIndex > 0 {
        currentIndex := currentIndex - 1;
      }
    }
  }
}
