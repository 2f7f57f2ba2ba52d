/** The creative-talent quiz: up to eight yes/no questions from the chosen
    category's bank, a score out of 100, the stored creative score map,
    and Arts scholarships for the category. The shuffle is a permutation
    given as a parameter. */
module CreativeAssessment {
  import opened Common
  import opened Records
  import opened ScoreMaps

  datatype Step = Select | Test | Result

  const Unanswered: int := -1
  const QuizLength: nat := 8

  /** `creativeQuestionBank[catId] || []`. */
  function BankFor(bank: map<string, seq<string>>, catId: string): seq<string>
  {
    if catId in bank then bank[catId] else []
  }

  /** The number of "yes" answers (value 1). */
  function YesCount(answers: seq<int>): (r: nat)
    ensures r <= |answers|
  {
    if answers == [] then 0 else (if answers[0] == 1 then 1 else 0) + YesCount(answers[1..])
  }

  /** `answers.reduce((acc, curr) => acc + (curr === 1 ? pointPerQ : 0), 0)`. */
  function Total(answers: seq<int>, pointPerQ: real): real
  {
    if answers == [] then 0.0 else (if answers[0] == 1 then pointPerQ else 0.0) + Total(answers[1..], pointPerQ)
  }

  /** The reduce adds `pointPerQ` once per "yes". */
  lemma {:induction false} TotalIsYesCount(answers: seq<int>, pointPerQ: real)
    ensures Total(answers, pointPerQ) == YesCount(answers) as real * pointPerQ
  {
    if answers != [] {
      TotalIsYesCount(answers[1..], pointPerQ);
    }
  }

  /** `Math.round(total)` with `pointPerQ = 100 / n`. With no questions the
      reduce runs over no answers and gives 0. */
  function CreativeScore(answers: seq<int>, n: nat): int
    requires |answers| == n
  {
    if n == 0 then 0 else Round(Total(answers, 100.0 / n as real))
  }

  /** The score is the share of "yes" answers, rounded, out of 100: it lies
      in 0..100, is 0 with no "yes" and 100 when every answer is "yes". */
  lemma CreativeScoreSpec(answers: seq<int>, n: nat)
    requires |answers| == n
    ensures 0 <= CreativeScore(answers, n) <= 100
    ensures n > 0 ==> CreativeScore(answers, n) == Round(Share(YesCount(answers), n))
    ensures YesCount(answers) == 0 ==> CreativeScore(answers, n) == 0
    ensures n > 0 && YesCount(answers) == n ==> CreativeScore(answers, n) == 100
  {
    if n > 0 {
      var pointPerQ := 100.0 / n as real;
      TotalIsYesCount(answers, pointPerQ);
      RoundShare(Total(answers, pointPerQ), YesCount(answers), n);
    }
  }

  /** `k` questions' worth of points when each of `n` is worth `100 / n`. */
  function Share(k: nat, n: nat): real
    requires n > 0
  {
    k as real * (100.0 / n as real)
  }

  /** Rounding `k` shares of `100 / n`. */
  lemma RoundShare(t: real, k: nat, n: nat)
    requires 0 < n && k <= n && t == k as real * (100.0 / n as real)
    ensures 0 <= Round(t) <= 100
    ensures k == 0 ==> Round(t) == 0
    ensures k == n ==> Round(t) == 100
  {
    YesShare(k, n);
    RoundWithin(t, 0, 100);
  }

  /** `k` of `n` shares of `100 / n` lie between 0 and 100, and all of
      them make exactly 100. */
  lemma YesShare(k: nat, n: nat)
    requires 0 < n && k <= n
    ensures 0.0 <= k as real * (100.0 / n as real) <= 100.0
    ensures k == n ==> k as real * (100.0 / n as real) == 100.0
  {
    var p := 100.0 / n as real;
    assert p * n as real == 100.0;
    assert k as real * p <= n as real * p;
  }

  /** The scholarship filter of `getRecommendations`. */
  predicate ArtsFor(category: string, s: Scholarship)
  {
    s.category == "Arts"
    && (s.artField == Some(category) || s.artField == Some("Creative") || !Truthy(s.artField))
  }

  /** `getRecommendations`: nothing before a category is chosen, else the
      first three Arts scholarships for the category, for "Creative", or
      without an art field. */
  function Recommendations(db: seq<Scholarship>, category: string): (r: seq<Scholarship>)
    ensures category == "" ==> r == []
    ensures |r| <= 3
    ensures forall s | s in r :: s in db && s.category == "Arts"
    ensures forall s | s in r ::
              s.artField.None? || s.artField.value in {category, "Creative", ""}
    ensures category != "" ==> |r| == Min(3, |Filter(db, (s: Scholarship) => ArtsFor(category, s))|)
    ensures category != "" ==> r <= Filter(db, (s: Scholarship) => ArtsFor(category, s))
  {
    if category == "" then []
    else
      var passes := (s: Scholarship) => ArtsFor(category, s);
      FilterMembers(db, passes);
      var matching := Filter(db, passes);
      var r := matching[..Min(3, |matching|)];
      assert forall s | s in r :: s in matching;
      r
  }

  class CreativeQuiz {
    var step: Step
    var selectedCategory: string
    var sessionQuestions: seq<string>
    var answers: seq<int>
    var score: int
    /** The stored `disha_creative_scores` object. */
    var storedScores: ScoreMap

    /** One answer slot per question. */
    predicate Valid()
      reads this
    {
      |answers| == |sessionQuestions|
    }

    constructor(stored: ScoreMap)
      ensures step == Select && selectedCategory == "" && sessionQuestions == [] && answers == []
      ensures score == 0 && storedScores == stored
      ensures Valid()
    {
      step := Select;
      selectedCategory := "";
      sessionQuestions := [];
      answers := [];
      score := 0;
      storedScores := stored;
    }

    /** `startTest`: up to eight questions of the category's bank in the
        shuffled order, every answer unset. */
    method StartTest(catId: string, bank: map<string, seq<string>>, shuffled: seq<string>)
      requires multiset(shuffled) == multiset(BankFor(bank, catId))
      modifies this
      ensures selectedCategory == catId && step == Test
      ensures |sessionQuestions| == Min(QuizLength, |BankFor(bank, catId)|)
      ensures multiset(sessionQuestions) <= multiset(BankFor(bank, catId))
      ensures |answers| == |sessionQuestions|
      ensures forall i | 0 <= i < |answers| :: answers[i] == Unanswered
      ensures score == old(score) && storedScores == old(storedScores)
      ensures Valid()
    {
      selectedCategory := catId;
      var selected := shuffled[..Min(QuizLength, |shuffled|)];
      assert shuffled == selected + shuffled[|selected|..];
      assert |shuffled| == |multiset(shuffled)|;
      sessionQuestions := selected;
      answers := seq(|selected|, _ => Unanswered);
      step := Test;
    }

    /** `handleAnswer`: a copy of the answers with one slot overwritten. */
    method HandleAnswer(idx: nat, val: int)
      requires Valid() && idx < |answers|
      modifies this
      ensures Valid()
      ensures |answers| == |old(answers)| && answers[idx] == val
      ensures forall i | 0 <= i < |answers| && i != idx :: answers[i] == old(answers)[i]
      ensures step == old(step) && selectedCategory == old(selectedCategory)
      ensures sessionQuestions == old(sessionQuestions) && score == old(score)
      ensures storedScores == old(storedScores)
    {
      var newAns := answers;
      newAns := newAns[idx := val];
      answers := newAns;
    }

    /** The "Calculate Score" button is enabled once no answer is unset. */
    predicate CanScore()
      reads this
    {
      Unanswered !in answers
    }

    /** `finishTest`, reached only through the enabled "Calculate Score"
        button: the score, and the stored map with the category's entry
        set to it. */
    method FinishTest()
      requires Valid() && CanScore()
      modifies this
      ensures answers == old(answers) && sessionQuestions == old(sessionQuestions)
      ensures score == CreativeScore(answers, |sessionQuestions|)
      ensures 0 <= score <= 100
      ensures Get(storedScores, selectedCategory) == Some(score)
      ensures forall k | k != selectedCategory :: Get(storedScores, k) == Get(old(storedScores), k)
      ensures step == Result
      ensures selectedCategory == old(selectedCategory)
    {
      var total := CreativeScore(answers, |sessionQuestions|);
      CreativeScoreSpec(answers, |sessionQuestions|);
      score := total;
      var existing := storedScores;
      existing := Put(existing, selectedCategory, total);
      storedScores := existing;
      step := Result;
    }
  }
}
