/** The personality quiz: up to twenty questions, each answer stored by
    question id and its impact added to the trait score map, then the
    profile summary, the radar chart data and the dominant traits. The
    shuffle is a permutation given as a parameter; the stored score item
    is a field. */
module PsychometricAssessment {
  import opened Common
  import opened Records
  import opened ScoreMaps

  const QuizLength: nat := 20

  /** The chart's full mark for every trait. */
  const FullMark: int := 20

  /** The summary sentences, one per known trait and one for any other
      top trait or an empty map. */
  datatype Summary =
    | NaturalLeader        // Extraversion
    | Organized            // Conscientiousness
    | Curious              // Openness
    | TeamPlayer           // Agreeableness
    | Resilient            // EmotionalStability
    | Entrepreneurial      // RiskTaking
    | WellBalanced

  function SummaryFor(name: string): Summary
  {
    if name == "Extraversion" then NaturalLeader
    else if name == "Conscientiousness" then Organized
    else if name == "Openness" then Curious
    else if name == "Agreeableness" then TeamPlayer
    else if name == "EmotionalStability" then Resilient
    else if name == "RiskTaking" then Entrepreneurial
    else WellBalanced
  }

  /** `getProfileSummary`: the sentence for the first entry of the scores
      sorted by value, "Balanced" when there is none. */
  function ProfileSummary(scores: ScoreMap): Summary
  {
    var sorted := TopEntries(scores, 1);
    if |sorted| > 0 then SummaryFor(sorted[0].key) else SummaryFor("Balanced")
  }

  /** The summary is the well-balanced one for an empty map, and otherwise
      the sentence of the first trait in map order whose score no other
      trait exceeds: every trait before it scores strictly less. */
  lemma ProfileSummarySpec(scores: ScoreMap)
    ensures scores == [] ==> ProfileSummary(scores) == WellBalanced
    ensures scores != [] ==>
              exists t | 0 <= t < |scores| ::
                && ProfileSummary(scores) == SummaryFor(scores[t].key)
                && (forall e | e in scores :: e.value <= scores[t].value)
                && forall i | 0 <= i < t :: scores[i].value < scores[t].value
  {
    if scores == [] {
      BalancedSummary();
    } else {
      var t := TopEntryIndex(scores);
      SummaryAt(scores, t);
    }
  }

  /** The top entry's place in the map gives the summary. */
  lemma SummaryAt(scores: ScoreMap, t: nat)
    requires t < |scores| && TopEntries(scores, 1)[0] == scores[t]
    ensures ProfileSummary(scores) == SummaryFor(scores[t].key)
  {
    SummaryOfTop(scores);
  }

  /** "Balanced" is not one of the six named traits. */
  lemma BalancedSummary()
    ensures ProfileSummary([]) == WellBalanced
  {
    assert TopEntries([], 1) == [];
  }

  /** A non-empty map gets the sentence of its top entry. */
  lemma SummaryOfTop(scores: ScoreMap)
    requires scores != []
    ensures ProfileSummary(scores) == SummaryFor(TopEntries(scores, 1)[0].key)
  {
  }

  datatype ChartPoint = ChartPoint(traitName: string, value: int, fullMark: int)

  /** `getChartData`: one point per trait in the map's order. */
  function ChartData(scores: ScoreMap): (r: seq<ChartPoint>)
    ensures |r| == |scores|
    ensures forall i | 0 <= i < |r| ::
              r[i].traitName == scores[i].key && r[i].value == scores[i].value && r[i].fullMark == FullMark
  {
    seq(|scores|, i requires 0 <= i < |scores| => ChartPoint(scores[i].key, scores[i].value, FullMark))
  }

  class PsychQuiz {
    var started: bool
    var questions: seq<Question>
    var currentIndex: nat
    var answers: map<string, string>
    var scores: ScoreMap
    var completed: bool
    /** The stored `disha_psych_scores` item. */
    var savedScores: Option<ScoreMap>

    /** The mount effect: the first twenty questions of a shuffled copy of
        the bank. */
    constructor(bank: seq<Question>, shuffled: seq<Question>)
      requires multiset(shuffled) == multiset(bank)
      ensures !started && !completed && currentIndex == 0
      ensures |questions| == Min(QuizLength, |bank|)
      ensures multiset(questions) <= multiset(bank)
      ensures answers == map[] && scores == [] && savedScores == None
    {
      started := false;
      var picked := shuffled[..Min(QuizLength, |shuffled|)];
      assert shuffled == picked + shuffled[|picked|..];
      assert |shuffled| == |multiset(shuffled)|;
      questions := picked;
      currentIndex := 0;
      answers := map[];
      scores := [];
      completed := false;
      savedScores := None;
    }

    /** `handleStart`. */
    method HandleStart()
      modifies this
      ensures started
      ensures questions == old(questions) && currentIndex == old(currentIndex)
      ensures answers == old(answers) && scores == old(scores)
      ensures completed == old(completed) && savedScores == old(savedScores)
    {
      started := true;
    }

    /** `handleAnswer` as written: records the answer for the current
        question, adds the option's impact, and moves on (after a short
        delay, not modelled) or finishes. `finishTest` stores the map of the
        render the click happened in, so the stored map leaves out the last
        answer. */
    method HandleAnswerAsWritten(val: string, impact: Option<Impact>)
      requires currentIndex < |questions|
      modifies this
      ensures questions == old(questions) && started == old(started)
      ensures answers == old(answers)[old(questions)[old(currentIndex)].id := val]
      ensures impact.Some? ==> scores == AddImpact(old(scores), impact.value.category, impact.value.value)
      ensures impact.None? ==> scores == old(scores)
      ensures old(currentIndex) + 1 < |questions| ==>
                currentIndex == old(currentIndex) + 1
                && completed == old(completed) && savedScores == old(savedScores)
      ensures old(currentIndex) + 1 >= |questions| ==>
                currentIndex == old(currentIndex) && completed && savedScores == Some(old(scores))
    {
      var rendered := scores;
      var qId := questions[currentIndex].id;
      answers := answers[qId := val];
      if impact.Some? {
        scores := AddImpact(scores, impact.value.category, impact.value.value);
      }
      if currentIndex + 1 < |questions| {
        currentIndex := currentIndex + 1;
      } else {
        savedScores := Some(rendered);
        completed := true;
      }
    }

    /** `handleAnswer` with the stored map taken after the last answer's
        impact is added, so the profile the other screens read covers every
        answer of the session. */
    method HandleAnswer(val: string, impact: Option<Impact>)
      requires currentIndex < |questions|
      modifies this
      ensures questions == old(questions) && started == old(started)
      ensures answers == old(answers)[old(questions)[old(currentIndex)].id := val]
      ensures impact.Some? ==> scores == AddImpact(old(scores), impact.value.category, impact.value.value)
      ensures impact.None? ==> scores == old(scores)
      ensures old(currentIndex) + 1 < |questions| ==>
                currentIndex == old(currentIndex) + 1
                && completed == old(completed) && savedScores == old(savedScores)
      ensures old(currentIndex) + 1 >= |questions| ==>
                currentIndex == old(currentIndex) && completed && savedScores == Some(scores)
    {
      var qId := questions[currentIndex].id;
      answers := answers[qId := val];
      if impact.Some? {
        scores := AddImpact(scores, impact.value.category, impact.value.value);
      }
      if currentIndex + 1 < |questions| {
        currentIndex := currentIndex + 1;
      } else {
        savedScores := Some(scores);
        completed := true;
      }
    }
  }

  /** A one-question quiz whose only answer scores 4 for Openness: as
      written, the stored map has no Openness entry although the live map
      has it; with the corrected handler the stored map has it. */
  method LastAnswerLost() returns (storedAsWritten: ScoreMap, storedCorrected: ScoreMap)
    ensures Get(storedAsWritten, "Openness") == None
    ensures Get(storedCorrected, "Openness") == Some(4)
  {
    var impact := Impact("Openness", 4);
    var q := Question("p1", Psychometric, [QuestionOption("Agree", Some(impact))]);
    var quiz := new PsychQuiz([q], [q]);
    quiz.HandleStart();
    quiz.HandleAnswerAsWritten("Agree", Some(impact));
    storedAsWritten := quiz.savedScores.value;
    var fixed := new PsychQuiz([q], [q]);
    fixed.HandleStart();
    fixed.HandleAnswer("Agree", Some(impact));
    storedCorrected := fixed.savedScores.value;
  }
}
