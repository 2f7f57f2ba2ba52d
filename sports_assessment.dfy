/** The sports assessment screen: the physical profile form, a quiz of up
    to fifteen questions whose options add to a raw score map, and the
    ranked sports computed from that map when the quiz ends. The shuffle
    is a permutation given as a parameter; the two stored items are fields. */
module SportsAssessment {
  import opened Common
  import opened Records
  import opened ScoreMaps
  import SportsLogic

  datatype Step = PhysicalForm | Quiz | Results

  const QuizLength: nat := 15

  /** The form's initial values (age, dominant hand and coaching are not
      read by the scorer and are not modelled). */
  const DefaultStats := SportsLogic.PhysicalStats(SportsLogic.Male, 165.0, 55.0, SportsLogic.Urban, true)

  /** The score map after one answer: the option's impact is added to its
      category, then a "Team" or "Solo" answer sets "Team" to 10 or 0. */
  function Answered(scores: ScoreMap, option: QuestionOption): ScoreMap
  {
    var withImpact :=
      if option.scoreImpact.Some?
      then AddImpact(scores, option.scoreImpact.value.category, option.scoreImpact.value.value)
      else scores;
    if option.value == "Team" || option.value == "Solo"
    then Put(withImpact, "Team", if option.value == "Team" then 10 else 0)
    else withImpact
  }

  /** A "Team"/"Solo" answer fixes the team preference whatever the impact
      said; otherwise the impact's category grows by its value; every other
      category is unchanged. */
  lemma AnsweredSpec(scores: ScoreMap, option: QuestionOption)
    ensures option.value == "Team" ==> Get(Answered(scores, option), "Team") == Some(10)
    ensures option.value == "Solo" ==> Get(Answered(scores, option), "Team") == Some(0)
    ensures option.scoreImpact.Some? &&
            !(option.scoreImpact.value.category == "Team" && option.value in {"Team", "Solo"}) ==>
              var cat := option.scoreImpact.value.category;
              Get(Answered(scores, option), cat) == Some(GetOr0(scores, cat) + option.scoreImpact.value.value)
    ensures option.scoreImpact.None? && option.value !in {"Team", "Solo"} ==>
              Answered(scores, option) == scores
    ensures forall k | k != "Team" && (option.scoreImpact.None? || k != option.scoreImpact.value.category) ::
              Get(Answered(scores, option), k) == Get(scores, k)
  {
  }

  datatype HeightClass = Tall | Medium | Short

  /** The result card's height class. */
  function ClassifyHeight(heightCm: real): (r: HeightClass)
    ensures r == Tall <==> heightCm > 175.0
    ensures r == Short <==> heightCm < 160.0
    ensures r == Medium <==> 160.0 <= heightCm <= 175.0
  {
    if heightCm > 175.0 then Tall else if heightCm < 160.0 then Short else Medium
  }

  /** The result card's dominant attributes: the keys of the three
      highest-scoring entries, ties in the map's order. */
  function DominantAttributes(scores: ScoreMap): (r: seq<string>)
    ensures |r| == Min(3, |scores|)
    ensures forall i | 0 <= i < |r| :: exists e | e in scores :: e.key == r[i]
    ensures forall i, j | 0 <= i < j < |r| :: exists a, b | a in scores && b in scores ::
              a.key == r[i] && b.key == r[j] && a.value >= b.value
    ensures |r| == |TopEntries(scores, 3)|
    ensures forall i | 0 <= i < |r| :: r[i] == TopEntries(scores, 3)[i].key
  {
    var top := TopEntries(scores, 3);
    assert forall i | 0 <= i < |top| :: top[i] in top;
    Keys(top)
  }

  class SportsQuiz {
    var step: Step
    var stats: SportsLogic.PhysicalStats
    var questions: seq<Question>
    var currentIndex: nat
    var scores: ScoreMap
    var recommendations: seq<SportsLogic.Recommendation>
    /** The stored `disha_sports_scores` and `disha_sports_stats` items. */
    var savedScores: Option<ScoreMap>
    var savedStats: Option<SportsLogic.PhysicalStats>

    /** The mount effect: the first fifteen questions of a shuffled copy of
        the bank. */
    constructor(bank: seq<Question>, shuffled: seq<Question>)
      requires multiset(shuffled) == multiset(bank)
      ensures step == PhysicalForm && stats == DefaultStats
      ensures |questions| == Min(QuizLength, |bank|)
      ensures multiset(questions) <= multiset(bank)
      ensures currentIndex == 0 && scores == [] && recommendations == []
      ensures savedScores == None && savedStats == None
    {
      step := PhysicalForm;
      stats := DefaultStats;
      var picked := shuffled[..Min(QuizLength, |shuffled|)];
      assert shuffled == picked + shuffled[|picked|..];
      assert |shuffled| == |multiset(shuffled)|;
      questions := picked;
      currentIndex := 0;
      scores := [];
      recommendations := [];
      savedScores := None;
      savedStats := None;
    }

    /** `handleStatChange`: the form replaces the profile. */
    method ChangeStats(newStats: SportsLogic.PhysicalStats)
      modifies this
      ensures stats == newStats
      ensures step == old(step) && questions == old(questions) && currentIndex == old(currentIndex)
      ensures scores == old(scores) && recommendations == old(recommendations)
      ensures savedScores == old(savedScores) && savedStats == old(savedStats)
    {
      stats := newStats;
    }

    /** `submitPhysical`. */
    method SubmitPhysical()
      modifies this
      ensures step == Quiz
      ensures stats == old(stats) && questions == old(questions) && currentIndex == old(currentIndex)
      ensures scores == old(scores) && recommendations == old(recommendations)
      ensures savedScores == old(savedScores) && savedStats == old(savedStats)
    {
      step := Quiz;
    }

    /** `handleQuizAnswer` as written: the answer updates the score map and
        the quiz moves on; after the last question `finishAssessment` ranks
        the sports and stores the map and the profile. `finishAssessment`
        reads the map of the render the click happened in, so the ranking
        and the stored map leave out the last answer. The screen ranks the
        catalog `SportsLogic.SportsDb`; it is passed in as `db`. */
    method HandleQuizAnswerAsWritten(option: QuestionOption, db: seq<SportsLogic.SportProfile>)
      requires stats.heightCm != 0.0
      modifies this
      ensures scores == Answered(old(scores), option)
      ensures stats == old(stats) && questions == old(questions)
      ensures old(currentIndex) + 1 < |questions| ==>
                currentIndex == old(currentIndex) + 1 && step == old(step)
                && recommendations == old(recommendations)
                && savedScores == old(savedScores) && savedStats == old(savedStats)
      ensures old(currentIndex) + 1 >= |questions| ==>
                currentIndex == old(currentIndex) && step == Results
                && recommendations == SportsLogic.Ranked(SportsLogic.AllResults(
                     stats, SportsLogic.MakeUserVector(stats, old(scores)), db))
                && savedScores == Some(old(scores)) && savedStats == Some(stats)
    {
      var rendered := scores;
      scores := Answered(scores, option);
      if currentIndex + 1 < |questions| {
        currentIndex := currentIndex + 1;
      } else {
        FinishAssessment(rendered, db);
      }
    }

    /** `handleQuizAnswer` with `finishAssessment` reading the map after
        the last answer, so the ranking and the stored map cover every
        answer of the quiz. */
    method HandleQuizAnswer(option: QuestionOption, db: seq<SportsLogic.SportProfile>)
      requires stats.heightCm != 0.0
      modifies this
      ensures scores == Answered(old(scores), option)
      ensures stats == old(stats) && questions == old(questions)
      ensures old(currentIndex) + 1 < |questions| ==>
                currentIndex == old(currentIndex) + 1 && step == old(step)
                && recommendations == old(recommendations)
                && savedScores == old(savedScores) && savedStats == old(savedStats)
      ensures old(currentIndex) + 1 >= |questions| ==>
                currentIndex == old(currentIndex) && step == Results
                && recommendations == SportsLogic.Ranked(SportsLogic.AllResults(
                     stats, SportsLogic.MakeUserVector(stats, scores), db))
                && savedScores == Some(scores) && savedStats == Some(stats)
    {
      scores := Answered(scores, option);
      if currentIndex + 1 < |questions| {
        currentIndex := currentIndex + 1;
      } else {
        FinishAssessment(scores, db);
      }
    }

    /** `finishAssessment` with the score map it reads: the ranking of the
        catalog for the profile and that map, stored with the profile. */
    method FinishAssessment(rendered: ScoreMap, db: seq<SportsLogic.SportProfile>)
      requires stats.heightCm != 0.0
      modifies this
      ensures stats == old(stats) && questions == old(questions)
      ensures currentIndex == old(currentIndex) && scores == old(scores)
      ensures recommendations == SportsLogic.Ranked(SportsLogic.AllResults(
                stats, SportsLogic.MakeUserVector(stats, rendered), db))
      ensures savedScores == Some(rendered) && savedStats == Some(stats) && step == Results
    {
      SaveResults(rendered);
      Rank(rendered, db);
    }

    /** The stored items and the step change of `finishAssessment`. */
    method SaveResults(rendered: ScoreMap)
      modifies this
      ensures savedScores == Some(rendered) && savedStats == Some(old(stats)) && step == Results
      ensures stats == old(stats) && questions == old(questions) && currentIndex == old(currentIndex)
      ensures scores == old(scores) && recommendations == old(recommendations)
    {
      savedScores, savedStats, step := Some(rendered), Some(stats), Results;
    }

    /** `setRecommendations(SportsLogic.getRecommendations(...))`. */
    method Rank(rendered: ScoreMap, db: seq<SportsLogic.SportProfile>)
      requires stats.heightCm != 0.0
      modifies this
      ensures stats == old(stats) && questions == old(questions) && currentIndex == old(currentIndex)
      ensures recommendations == SportsLogic.Ranked(SportsLogic.AllResults(
                stats, SportsLogic.MakeUserVector(stats, rendered), db))
      ensures scores == old(scores) && step == old(step)
      ensures savedScores == old(savedScores) && savedStats == old(savedStats)
    {
      var recs := SportsLogic.GetRecommendations(stats, rendered, db);
      recommendations := recs;
    }
  }

  /** A one-question quiz answered "Team": as written, the map that is
      ranked and stored has no team preference, so the ranking scores the
      user as a solo player; with the corrected handler the preference is
      there. */
  method TeamAnswerLost() returns (storedAsWritten: ScoreMap, storedCorrected: ScoreMap)
    ensures SportsLogic.TeamInterest(storedAsWritten) == 0.0
    ensures SportsLogic.TeamInterest(storedCorrected) == 1.0
  {
    var team := QuestionOption("Team", None);
    var q := Question("s1", Sports, [team, QuestionOption("Solo", None)]);
    var quiz := new SportsQuiz([q], [q]);
    quiz.SubmitPhysical();
    quiz.HandleQuizAnswerAsWritten(team, []);
    storedAsWritten := quiz.savedScores.value;
    var fixed := new SportsQuiz([q], [q]);
    fixed.SubmitPhysical();
    fixed.HandleQuizAnswer(team, []);
    storedCorrected := fixed.savedScores.value;
  }
}
