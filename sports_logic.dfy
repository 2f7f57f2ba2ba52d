/** The sports suitability scorer: a user's body measurements and raw
    quiz scores become a vector in [0,1], each sport profile of a catalog
    is scored against it by weighted similarity, and the ten best matches
    come back, each with a reason and up to three areas to improve. */
module SportsLogic {
  import opened Common
  import opened StableSort
  import opened ScoreMaps

  datatype Env = Indoor | Outdoor | Water | Any

  datatype Location = Urban | Rural | Coastal | Mountain

  datatype Gender = Male | Female | Other

  /** A sport's ideal attributes, each in [0,1], and where it is played. */
  datatype SportProfile = SportProfile(
    name: string,
    idealHeight: real, idealBmi: real,
    strength: real, speed: real, endurance: real,
    reflex: real, coordination: real, flexibility: real,
    tactical: real, team: real, aggression: real,
    preferredEnv: seq<Env>)

  /** The fields of a user's physical profile that the scorer reads. */
  datatype PhysicalStats = PhysicalStats(
    gender: Gender, heightCm: real, weightKg: real,
    locationType: Location, hasPlayground: bool)

  datatype UserVector = UserVector(
    height: real, bmi: real,
    strength: real, speed: real, endurance: real,
    reflex: real, coordination: real, tactical: real, flexibility: real,
    teamInterest: real)

  datatype Recommendation = Recommendation(
    sport: string,
    suitabilityScore: int,
    matchReason: Reason,
    developmentPath: seq<PathStep>,
    improvementAreas: seq<Gap>)

  /** A match reason; `ReasonText` is the message shown. */
  datatype Reason = HighStrength | QuickReflexes | Stamina | Strategic | TeamSpirit | Height | BalancedFit

  function ReasonText(r: Reason): string
  {
    match r
    case HighStrength => "Matches your high strength profile."
    case QuickReflexes => "Leverages your quick reflexes."
    case Stamina => "Good fit for your stamina."
    case Strategic => "Suits your strategic thinking."
    case TeamSpirit => "Aligned with your team spirit."
    case Height => "Your height is a significant advantage."
    case BalancedFit => "Balanced fit for your physical profile."
  }

  /** A step of the development path; `PathStepText` is the label shown. */
  datatype PathStep = JoinAcademy | DistrictTrials | StateChampionship

  function PathStepText(p: PathStep): string
  {
    match p
    case JoinAcademy => "Join Academy"
    case DistrictTrials => "District Trials"
    case StateChampionship => "State Championship"
  }

  /** An improvement area; `GapText` is the label shown. */
  datatype Gap = StrengthTraining | CardioStamina | FlexibilityYoga | StrategicStudy | DrillsTechnique

  function GapText(g: Gap): string
  {
    match g
    case StrengthTraining => "Strength Training"
    case CardioStamina => "Cardio/Stamina"
    case FlexibilityYoga => "Flexibility/Yoga"
    case StrategicStudy => "Strategic Study"
    case DrillsTechnique => "Drills/Technique"
  }

  function Abs(x: real): (r: real)
    ensures r >= 0.0 && (r == x || r == -x)
  {
    if x < 0.0 then -x else x
  }

  /** `toFixed(1)` read back as a number: the nearest multiple of 0.1, a
      tie going away from zero. */
  function Fixed1(x: real): (r: real)
    ensures -0.05 <= r - x <= 0.05
    ensures x >= 0.0 ==> r >= 0.0
  {
    if x >= 0.0 then Round(x * 10.0) as real / 10.0
    else -(Round(-x * 10.0) as real / 10.0)
  }

  /** Weight over height in metres squared, exactly. */
  function ExactBmi(weightKg: real, heightCm: real): real
    requires heightCm != 0.0
  {
    weightKg / ((heightCm / 100.0) * (heightCm / 100.0))
  }

  /** Body mass index to one decimal, as `toFixed(1)` leaves it: within
      0.05 of the exact quotient. */
  function CalculateBmi(weightKg: real, heightCm: real): (r: real)
    requires heightCm != 0.0
    ensures -0.05 <= r - ExactBmi(weightKg, heightCm) <= 0.05
  {
    Fixed1(ExactBmi(weightKg, heightCm))
  }

  /** Height mapped linearly from 140..190 cm onto [0,1]. A gender baseline
      is computed and not used, so the result does not depend on gender. */
  function NormalizeHeight(cm: real, gender: Gender): (r: real)
    ensures 0.0 <= r <= 1.0
    ensures cm <= 140.0 ==> r == 0.0
    ensures cm >= 190.0 ==> r == 1.0
  {
    var base := if gender == Male then 165.0 else 155.0;
    Clamp01((cm - 140.0) / (190.0 - 140.0))
  }

  lemma NormalizeHeightIgnoresGender(cm: real, g1: Gender, g2: Gender)
    ensures NormalizeHeight(cm, g1) == NormalizeHeight(cm, g2)
  {
  }

  lemma NormalizeHeightMonotone(a: real, b: real, g: Gender)
    requires a <= b
    ensures NormalizeHeight(a, g) <= NormalizeHeight(b, g)
  {
  }

  /** BMI mapped linearly from 15..35 onto [0,1]. */
  function NormalizeBmi(bmi: real): (r: real)
    ensures 0.0 <= r <= 1.0
    ensures bmi <= 15.0 ==> r == 0.0
    ensures bmi >= 35.0 ==> r == 1.0
  {
    Clamp01((bmi - 15.0) / (35.0 - 15.0))
  }

  const MaxCategoryScore: real := 30.0

  /** A raw category sum as a fraction of 30, clamped to [0,1]. */
  function NormalizeScore(score: real): (r: real)
    ensures 0.0 <= r <= 1.0
    ensures score <= 0.0 ==> r == 0.0
    ensures score >= MaxCategoryScore ==> r == 1.0
    ensures 0.0 <= score <= MaxCategoryScore ==> r * MaxCategoryScore == score
  {
    Clamp01(score / MaxCategoryScore)
  }

  /** `scores['Team'] && scores['Team'] > 5 ? 1.0 : 0.0`. */
  function TeamInterest(scores: ScoreMap): (r: real)
    ensures r == 0.0 || r == 1.0
    ensures r == 1.0 <==> Get(scores, "Team").Some? && Get(scores, "Team").value > 5
  {
    var t := Get(scores, "Team");
    if t.Some? && t.value != 0 && t.value > 5 then 1.0 else 0.0
  }

  function Category(scores: ScoreMap, key: string): real
  {
    NormalizeScore(GetOr0(scores, key) as real)
  }

  /** Every component of a user vector lies in [0,1]. */
  ghost predicate UnitUser(u: UserVector)
  {
    && 0.0 <= u.height <= 1.0 && 0.0 <= u.bmi <= 1.0
    && 0.0 <= u.strength <= 1.0 && 0.0 <= u.speed <= 1.0 && 0.0 <= u.endurance <= 1.0
    && 0.0 <= u.reflex <= 1.0 && 0.0 <= u.coordination <= 1.0
    && 0.0 <= u.tactical <= 1.0 && 0.0 <= u.flexibility <= 1.0
    && 0.0 <= u.teamInterest <= 1.0
  }

  /** Every ideal attribute of a sport profile lies in [0,1]. */
  ghost predicate UnitSport(s: SportProfile)
  {
    && 0.0 <= s.idealHeight <= 1.0 && 0.0 <= s.idealBmi <= 1.0
    && 0.0 <= s.strength <= 1.0 && 0.0 <= s.speed <= 1.0 && 0.0 <= s.endurance <= 1.0
    && 0.0 <= s.reflex <= 1.0 && 0.0 <= s.coordination <= 1.0 && 0.0 <= s.flexibility <= 1.0
    && 0.0 <= s.tactical <= 1.0 && 0.0 <= s.team <= 1.0 && 0.0 <= s.aggression <= 1.0
  }

  /** The user's normalised vector: every component in [0,1], whatever the
      measurements and scores. */
  function MakeUserVector(stats: PhysicalStats, scores: ScoreMap): (u: UserVector)
    requires stats.heightCm != 0.0
    ensures UnitUser(u)
    ensures u.teamInterest == TeamInterest(scores)
    ensures u.strength == Category(scores, "Strength") && u.speed == Category(scores, "Speed")
    ensures u.endurance == Category(scores, "Endurance") && u.reflex == Category(scores, "Reflex")
    ensures u.coordination == Category(scores, "Coordination")
    ensures u.tactical == Category(scores, "Tactical") && u.flexibility == Category(scores, "Flexibility")
  {
    UserVector(
      NormalizeHeight(stats.heightCm, stats.gender),
      NormalizeBmi(CalculateBmi(stats.weightKg, stats.heightCm)),
      Category(scores, "Strength"), Category(scores, "Speed"), Category(scores, "Endurance"),
      Category(scores, "Reflex"), Category(scores, "Coordination"),
      Category(scores, "Tactical"), Category(scores, "Flexibility"),
      TeamInterest(scores))
  }

  /** `1 - |u - i|`: 1 for a perfect match, in [0,1] for unit inputs. */
  function Similarity(u: real, ideal: real): (r: real)
    ensures r <= 1.0
    ensures r == 1.0 <==> u == ideal
    ensures 0.0 <= u <= 1.0 && 0.0 <= ideal <= 1.0 ==> 0.0 <= r
  {
    1.0 - Abs(u - ideal)
  }

  /** Six sub-indices and the environment bonus: physical (strength,
      speed, endurance), anthropometric (height, BMI), skill (reflex,
      coordination), psychological (tactics), interest (team) and
      environment. */
  datatype Indices = Indices(
    physical: real, anthropometric: real, skill: real,
    psych: real, interest: real, env: real)

  function SubIndices(u: UserVector, s: SportProfile, env: real): (x: Indices)
    ensures UnitUser(u) && UnitSport(s) ==>
      && 0.0 <= x.physical <= 1.0 && 0.0 <= x.anthropometric <= 1.0
      && 0.0 <= x.skill <= 1.0 && 0.0 <= x.psych <= 1.0 && 0.0 <= x.interest <= 1.0
    ensures x.env == env
  {
    Indices(
      (Similarity(u.strength, s.strength) + Similarity(u.speed, s.speed)
        + Similarity(u.endurance, s.endurance)) / 3.0,
      (Similarity(u.height, s.idealHeight) + Similarity(u.bmi, s.idealBmi)) / 2.0,
      (Similarity(u.reflex, s.reflex) + Similarity(u.coordination, s.coordination)) / 2.0,
      Similarity(u.tactical, s.tactical),
      Similarity(u.teamInterest, s.team),
      env)
  }

  const WPhysical: real := 0.25
  const WSkill: real := 0.20
  const WPsych: real := 0.20
  const WInterest: real := 0.15
  const WEnv: real := 0.10
  const WAnthropometric: real := 0.10

  /** The weighted sum of the sub-indices. */
  function RawScore(x: Indices): real
  {
    WPhysical * x.physical + WSkill * x.skill + WPsych * x.psych
      + WInterest * x.interest + WEnv * x.env + WAnthropometric * x.anthropometric
  }

  /** The weights sum to 1, so a perfect match on every sub-index scores 1
      and sub-indices in [0,1] keep the raw score in [0,1]. */
  lemma RawScoreBounds(x: Indices)
    requires 0.0 <= x.physical <= 1.0 && 0.0 <= x.anthropometric <= 1.0
    requires 0.0 <= x.skill <= 1.0 && 0.0 <= x.psych <= 1.0
    requires 0.0 <= x.interest <= 1.0 && 0.0 <= x.env <= 1.0
    ensures 0.0 <= RawScore(x) <= 1.0
    ensures RawScore(Indices(1.0, 1.0, 1.0, 1.0, 1.0, 1.0)) == 1.0
  {
    assert WPhysical + WSkill + WPsych + WInterest + WEnv + WAnthropometric == 1.0;
  }

  /** The environment bonus: the first rule that matches the location,
      the playground and the places the sport is played, 0.5 when none do. */
  function EnvFit(stats: PhysicalStats, s: SportProfile): (r: real)
    ensures r in {0.2, 0.5, 0.8, 0.9, 1.0}
    ensures r == 0.5 <==>
      && !(stats.locationType == Coastal && Water in s.preferredEnv)
      && !(stats.locationType == Mountain && Contains(s.name, "Running"))
      && !(stats.locationType == Urban && Indoor in s.preferredEnv)
      && Outdoor !in s.preferredEnv
    ensures r == 1.0 <==>
      || (stats.locationType == Coastal && Water in s.preferredEnv)
      || (stats.locationType == Mountain && Contains(s.name, "Running"))
    ensures r == 0.8 <==>
      && !(stats.locationType == Coastal && Water in s.preferredEnv)
      && !(stats.locationType == Mountain && Contains(s.name, "Running"))
      && stats.locationType == Urban && Indoor in s.preferredEnv
    ensures r == 0.9 <==>
      && stats.hasPlayground && Outdoor in s.preferredEnv
      && !(stats.locationType == Coastal && Water in s.preferredEnv)
      && !(stats.locationType == Mountain && Contains(s.name, "Running"))
      && !(stats.locationType == Urban && Indoor in s.preferredEnv)
    ensures r == 0.2 <==>
      && !stats.hasPlayground && Outdoor in s.preferredEnv
      && !(stats.locationType == Coastal && Water in s.preferredEnv)
      && !(stats.locationType == Mountain && Contains(s.name, "Running"))
      && !(stats.locationType == Urban && Indoor in s.preferredEnv)
  {
    if stats.locationType == Coastal && Water in s.preferredEnv then 1.0
    else if stats.locationType == Mountain && Contains(s.name, "Running") then 1.0
    else if stats.locationType == Urban && Indoor in s.preferredEnv then 0.8
    else if stats.hasPlayground && Outdoor in s.preferredEnv then 0.9
    else if !stats.hasPlayground && Outdoor in s.preferredEnv then 0.2
    else 0.5
  }

  /** The position of a gap in the order the scorer checks them. */
  function CheckOrder(g: Gap): nat
  {
    match g
    case StrengthTraining => 0
    case CardioStamina => 1
    case FlexibilityYoga => 2
    case StrategicStudy => 3
    case DrillsTechnique => 4
  }

  /** The user is more than 0.2 below the sport's ideal in the attribute
      the gap trains. */
  predicate Deficit(s: SportProfile, u: UserVector, g: Gap)
  {
    match g
    case StrengthTraining => u.strength < s.strength - 0.2
    case CardioStamina => u.endurance < s.endurance - 0.2
    case FlexibilityYoga => u.flexibility < s.flexibility - 0.2
    case StrategicStudy => u.tactical < s.tactical - 0.2
    case DrillsTechnique => u.coordination < s.coordination - 0.2
  }

  /** Gaps listed in strictly increasing check order. */
  predicate InCheckOrder(gaps: seq<Gap>)
  {
    forall i, j | 0 <= i < j < |gaps| :: CheckOrder(gaps[i]) < CheckOrder(gaps[j])
  }

  /** `if (cond) improvements.push(g)`. */
  function PushIf(gaps: seq<Gap>, cond: bool, g: Gap): seq<Gap>
  {
    if cond then gaps + [g] else gaps
  }

  /** A gap checked after every gap already listed keeps the list in check
      order. */
  lemma PushIfOrder(gaps: seq<Gap>, cond: bool, g: Gap)
    requires InCheckOrder(gaps)
    requires forall x | x in gaps :: CheckOrder(x) < CheckOrder(g)
    ensures InCheckOrder(PushIf(gaps, cond, g))
    ensures forall x | x in PushIf(gaps, cond, g) :: CheckOrder(x) <= CheckOrder(g)
  {
  }

  /** A push adds the gap when the condition holds, and nothing else. */
  lemma PushIfMembers(gaps: seq<Gap>, cond: bool, g: Gap)
    ensures forall x :: x in PushIf(gaps, cond, g) <==> x in gaps || (cond && x == g)
  {
  }

  /** The training gaps, pushed one check at a time. */
  function Gaps(s: SportProfile, u: UserVector): (r: seq<Gap>)
    ensures |r| <= 5
  {
    var g1 := PushIf([], u.strength < s.strength - 0.2, StrengthTraining);
    var g2 := PushIf(g1, u.endurance < s.endurance - 0.2, CardioStamina);
    var g3 := PushIf(g2, u.flexibility < s.flexibility - 0.2, FlexibilityYoga);
    var g4 := PushIf(g3, u.tactical < s.tactical - 0.2, StrategicStudy);
    PushIf(g4, u.coordination < s.coordination - 0.2, DrillsTechnique)
  }

  /** The gaps are exactly the attributes in deficit. */
  lemma GapsMembers(s: SportProfile, u: UserVector)
    ensures forall g :: g in Gaps(s, u) <==> Deficit(s, u, g)
  {
    var g1 := PushIf([], u.strength < s.strength - 0.2, StrengthTraining);
    var g2 := PushIf(g1, u.endurance < s.endurance - 0.2, CardioStamina);
    var g3 := PushIf(g2, u.flexibility < s.flexibility - 0.2, FlexibilityYoga);
    var g4 := PushIf(g3, u.tactical < s.tactical - 0.2, StrategicStudy);
    PushIfMembers([], u.strength < s.strength - 0.2, StrengthTraining);
    PushIfMembers(g1, u.endurance < s.endurance - 0.2, CardioStamina);
    PushIfMembers(g2, u.flexibility < s.flexibility - 0.2, FlexibilityYoga);
    PushIfMembers(g3, u.tactical < s.tactical - 0.2, StrategicStudy);
    PushIfMembers(g4, u.coordination < s.coordination - 0.2, DrillsTechnique);
  }

  /** The gaps are listed in check order, so each appears once. */
  lemma GapsInCheckOrder(s: SportProfile, u: UserVector)
    ensures InCheckOrder(Gaps(s, u))
  {
    var g1 := PushIf([], u.strength < s.strength - 0.2, StrengthTraining);
    PushIfOrder([], u.strength < s.strength - 0.2, StrengthTraining);
    var g2 := PushIf(g1, u.endurance < s.endurance - 0.2, CardioStamina);
    PushIfOrder(g1, u.endurance < s.endurance - 0.2, CardioStamina);
    var g3 := PushIf(g2, u.flexibility < s.flexibility - 0.2, FlexibilityYoga);
    PushIfOrder(g2, u.flexibility < s.flexibility - 0.2, FlexibilityYoga);
    var g4 := PushIf(g3, u.tactical < s.tactical - 0.2, StrategicStudy);
    PushIfOrder(g3, u.tactical < s.tactical - 0.2, StrategicStudy);
    PushIfOrder(g4, u.coordination < s.coordination - 0.2, DrillsTechnique);
  }

  /** `improvements.slice(0, 3)`. */
  function TopGaps(s: SportProfile, u: UserVector): (r: seq<Gap>)
    ensures |r| <= 3
    ensures forall x | x in r :: x in Gaps(s, u)
  {
    var all := Gaps(s, u);
    all[..Min(3, |all|)]
  }

  /** Every improvement area names a real deficit, in check order; when at
      most three deficits exist, every one of them is named; a strength
      deficit always comes first. */
  lemma TopGapsSpec(s: SportProfile, u: UserVector)
    ensures forall g | g in TopGaps(s, u) :: Deficit(s, u, g)
    ensures InCheckOrder(TopGaps(s, u))
    ensures |Gaps(s, u)| <= 3 ==> forall g :: Deficit(s, u, g) ==> g in TopGaps(s, u)
    ensures Deficit(s, u, StrengthTraining) ==> TopGaps(s, u)[0] == StrengthTraining
  {
    GapsMembers(s, u);
    GapsInCheckOrder(s, u);
    var all := Gaps(s, u);
    var top := TopGaps(s, u);
    assert top == all[..Min(3, |all|)];
    if Deficit(s, u, StrengthTraining) {
      var k :| 0 <= k < |all| && all[k] == StrengthTraining;
      if k != 0 {
        assert false;
      }
    }
  }

  /** The message of the first reason whose two thresholds both hold; the
      balanced-fit message exactly when none does. */
  function GenerateReason(s: SportProfile, u: UserVector): (r: Reason)
    ensures r == HighStrength <==> s.strength > 0.8 && u.strength > 0.7
    ensures r == QuickReflexes <==>
      && !(s.strength > 0.8 && u.strength > 0.7)
      && s.reflex > 0.8 && u.reflex > 0.7
    ensures r == Stamina <==>
      && !(s.strength > 0.8 && u.strength > 0.7)
      && !(s.reflex > 0.8 && u.reflex > 0.7)
      && s.endurance > 0.8 && u.endurance > 0.7
    ensures r == Strategic <==>
      && !(s.strength > 0.8 && u.strength > 0.7)
      && !(s.reflex > 0.8 && u.reflex > 0.7)
      && !(s.endurance > 0.8 && u.endurance > 0.7)
      && s.tactical > 0.8 && u.tactical > 0.7
    ensures r == TeamSpirit <==>
      && !(s.strength > 0.8 && u.strength > 0.7)
      && !(s.reflex > 0.8 && u.reflex > 0.7)
      && !(s.endurance > 0.8 && u.endurance > 0.7)
      && !(s.tactical > 0.8 && u.tactical > 0.7)
      && s.team == 1.0 && u.teamInterest == 1.0
    ensures r == Height <==>
      && !(s.strength > 0.8 && u.strength > 0.7)
      && !(s.reflex > 0.8 && u.reflex > 0.7)
      && !(s.endurance > 0.8 && u.endurance > 0.7)
      && !(s.tactical > 0.8 && u.tactical > 0.7)
      && !(s.team == 1.0 && u.teamInterest == 1.0)
      && s.idealHeight > 0.8 && u.height > 0.7
    ensures r == BalancedFit <==>
      && !(s.strength > 0.8 && u.strength > 0.7)
      && !(s.reflex > 0.8 && u.reflex > 0.7)
      && !(s.endurance > 0.8 && u.endurance > 0.7)
      && !(s.tactical > 0.8 && u.tactical > 0.7)
      && !(s.team == 1.0 && u.teamInterest == 1.0)
      && !(s.idealHeight > 0.8 && u.height > 0.7)
  {
    if s.strength > 0.8 && u.strength > 0.7 then HighStrength
    else if s.reflex > 0.8 && u.reflex > 0.7 then QuickReflexes
    else if s.endurance > 0.8 && u.endurance > 0.7 then Stamina
    else if s.tactical > 0.8 && u.tactical > 0.7 then Strategic
    else if s.team == 1.0 && u.teamInterest == 1.0 then TeamSpirit
    else if s.idealHeight > 0.8 && u.height > 0.7 then Height
    else BalancedFit
  }

  const DevelopmentPath: seq<PathStep> := [JoinAcademy, DistrictTrials, StateChampionship]

  /** What the scorer produces for one sport. */
  function SportResult(stats: PhysicalStats, u: UserVector, s: SportProfile): Recommendation
  {
    Recommendation(
      s.name,
      Round(RawScore(SubIndices(u, s, EnvFit(stats, s))) * 100.0),
      GenerateReason(s, u),
      DevelopmentPath,
      TopGaps(s, u))
  }

  /** Scores one sport: the environment bonus by an `else if` chain over a
      variable, the gaps pushed one check at a time. */
  method ScoreSport(stats: PhysicalStats, u: UserVector, s: SportProfile) returns (rec: Recommendation)
    ensures rec == SportResult(stats, u, s)
  {
    var envScore := 0.5;
    if stats.locationType == Coastal && Water in s.preferredEnv {
      envScore := 1.0;
    } else if stats.locationType == Mountain && Contains(s.name, "Running") {
      envScore := 1.0;
    } else if stats.locationType == Urban && Indoor in s.preferredEnv {
      envScore := 0.8;
    } else if stats.hasPlayground && Outdoor in s.preferredEnv {
      envScore := 0.9;
    } else if !stats.hasPlayground && Outdoor in s.preferredEnv {
      envScore := 0.2;
    }
    assert envScore == EnvFit(stats, s);
    var x := SubIndices(u, s, envScore);
    var score := Round(RawScore(x) * 100.0);

    var improvements: seq<Gap> := [];
    if u.strength < s.strength - 0.2 { improvements := improvements + [StrengthTraining]; }
    ghost var g := [];
    assert improvements == PushIf(g, u.strength < s.strength - 0.2, StrengthTraining);
    g := improvements;
    if u.endurance < s.endurance - 0.2 { improvements := improvements + [CardioStamina]; }
    assert improvements == PushIf(g, u.endurance < s.endurance - 0.2, CardioStamina);
    g := improvements;
    if u.flexibility < s.flexibility - 0.2 { improvements := improvements + [FlexibilityYoga]; }
    assert improvements == PushIf(g, u.flexibility < s.flexibility - 0.2, FlexibilityYoga);
    g := improvements;
    if u.tactical < s.tactical - 0.2 { improvements := improvements + [StrategicStudy]; }
    assert improvements == PushIf(g, u.tactical < s.tactical - 0.2, StrategicStudy);
    g := improvements;
    if u.coordination < s.coordination - 0.2 { improvements := improvements + [DrillsTechnique]; }
    assert improvements == PushIf(g, u.coordination < s.coordination - 0.2, DrillsTechnique);
    assert improvements == Gaps(s, u);

    rec := Recommendation(s.name, score, GenerateReason(s, u), DevelopmentPath,
                          improvements[..Min(3, |improvements|)]);
  }

  function Score(r: Recommendation): real
  {
    r.suitabilityScore as real
  }

  /** The recommendations for a whole catalog, in catalog order. */
  function AllResults(stats: PhysicalStats, u: UserVector, db: seq<SportProfile>): (r: seq<Recommendation>)
    ensures |r| == |db|
    ensures forall i | 0 <= i < |db| :: r[i] == SportResult(stats, u, db[i])
  {
    seq(|db|, i requires 0 <= i < |db| => SportResult(stats, u, db[i]))
  }

  /** `recommendations.sort(...).slice(0, 10)`. */
  function Ranked(all: seq<Recommendation>): seq<Recommendation>
  {
    TopK(all, Score, 10)
  }

  /** The ranking keeps min(10, n) results, best first, and no result left
      out scores higher than one kept. */
  lemma RankedSpec(stats: PhysicalStats, u: UserVector, db: seq<SportProfile>)
    ensures var top := Ranked(AllResults(stats, u, db));
      && |top| == Min(10, |db|)
      && (forall i, j | 0 <= i < j < |top| :: top[i].suitabilityScore >= top[j].suitabilityScore)
      && (forall k | 0 <= k < |db| && SportResult(stats, u, db[k]) !in top ::
            forall r | r in top :: r.suitabilityScore >= SportResult(stats, u, db[k]).suitabilityScore)
  {
    var all := AllResults(stats, u, db);
    var top := Ranked(all);
    assert SortedDesc(top, Score);
    forall k | 0 <= k < |db| && SportResult(stats, u, db[k]) !in top
      ensures forall r | r in top :: r.suitabilityScore >= SportResult(stats, u, db[k]).suitabilityScore
    {
      assert all[k] in all;
    }
  }

  /** Every ranked result is the result for some sport of the catalog. */
  lemma RankedFromCatalog(stats: PhysicalStats, u: UserVector, db: seq<SportProfile>)
    ensures forall r | r in Ranked(AllResults(stats, u, db)) ::
              exists k | 0 <= k < |db| :: r == SportResult(stats, u, db[k])
  {
    var all := AllResults(stats, u, db);
    var top := Ranked(all);
    forall r | r in top ensures exists k | 0 <= k < |db| :: r == SportResult(stats, u, db[k]) {
      assert r in multiset(top);
      var k :| 0 <= k < |all| && all[k] == r;
    }
  }

  /** With the user vector and every sport profile in [0,1], every score
      lies in [0,100]. */
  lemma AllResultsBounded(stats: PhysicalStats, u: UserVector, db: seq<SportProfile>)
    requires UnitUser(u)
    requires forall s | s in db :: UnitSport(s)
    ensures forall r | r in AllResults(stats, u, db) :: 0 <= r.suitabilityScore <= 100
  {
    forall k | 0 <= k < |db| ensures 0 <= SportResult(stats, u, db[k]).suitabilityScore <= 100 {
      var x := SubIndices(u, db[k], EnvFit(stats, db[k]));
      RawScoreBounds(x);
      RoundWithin(RawScore(x) * 100.0, 0, 100);
    }
  }

  /** Scores every sport of the catalog in order, then keeps the ten best
      after a stable sort by score. */
  method GetRecommendations(stats: PhysicalStats, scores: ScoreMap, db: seq<SportProfile>)
    returns (top: seq<Recommendation>)
    requires stats.heightCm != 0.0
    ensures top == Ranked(AllResults(stats, MakeUserVector(stats, scores), db))
  {
    var u := MakeUserVector(stats, scores);
    ghost var spec := AllResults(stats, u, db);
    var all: seq<Recommendation> := [];
    for i := 0 to |db|
      invariant all == spec[..i]
    {
      var rec := ScoreSport(stats, u, db[i]);
      assert rec == spec[i];
      PrefixStep(spec, i);
      all := all + [rec];
    }
    assert spec[..|db|] == spec;
    top := TopK(all, Score, 10);
  }

  /** Sports with equal scores keep their catalog order in the full ranking. */
  lemma RankingKeepsCatalogOrder(stats: PhysicalStats, u: UserVector, db: seq<SportProfile>, v: real)
    ensures WithKey(SortDesc(AllResults(stats, u, db), Score), Score, v)
         == WithKey(AllResults(stats, u, db), Score, v)
  {
    SortDescStable(AllResults(stats, u, db), Score, v);
  }

  function Profile(name: string, h: real, b: real, str: real, spd: real, end: real,
                   rfx: real, crd: real, flx: real, tac: real, team: real, agg: real,
                   env: seq<Env>): SportProfile
  {
    SportProfile(name, h, b, str, spd, end, rfx, crd, flx, tac, team, agg, env)
  }

  /** The built-in catalog of twelve sport profiles. */
  const SportsDb: seq<SportProfile> := [
    Profile("Basketball", 0.9, 0.5, 0.6, 0.7, 0.7, 0.7, 0.8, 0.6, 0.6, 1.0, 0.5, [Indoor, Outdoor]),
    Profile("Football (Soccer)", 0.5, 0.4, 0.6, 0.8, 0.9, 0.6, 0.9, 0.7, 0.8, 1.0, 0.6, [Outdoor]),
    Profile("Cricket (Fast Bowling)", 0.8, 0.5, 0.8, 0.8, 0.7, 0.6, 0.7, 0.6, 0.7, 1.0, 0.8, [Outdoor]),
    Profile("Badminton", 0.5, 0.3, 0.5, 0.9, 0.7, 1.0, 0.9, 0.8, 0.7, 0.0, 0.4, [Indoor]),
    Profile("Weightlifting", 0.3, 0.9, 1.0, 0.6, 0.3, 0.4, 0.6, 0.7, 0.3, 0.0, 0.7, [Indoor]),
    Profile("Swimming", 0.8, 0.5, 0.7, 0.7, 0.9, 0.5, 0.8, 0.9, 0.4, 0.0, 0.3, [Water]),
    Profile("Chess", 0.5, 0.5, 0.1, 0.1, 0.6, 0.2, 0.2, 0.1, 1.0, 0.0, 0.4, [Indoor]),
    Profile("Table Tennis", 0.4, 0.4, 0.4, 0.8, 0.6, 1.0, 1.0, 0.6, 0.7, 0.0, 0.5, [Indoor]),
    Profile("Kabaddi", 0.6, 0.7, 0.9, 0.7, 0.8, 0.8, 0.7, 0.7, 0.8, 1.0, 0.9, [Indoor, Outdoor]),
    Profile("Athletics (Sprinting)", 0.7, 0.4, 0.8, 1.0, 0.5, 0.8, 0.7, 0.7, 0.3, 0.0, 0.7, [Outdoor]),
    Profile("Wrestling", 0.5, 0.8, 1.0, 0.6, 0.8, 0.7, 0.7, 0.8, 0.7, 0.0, 0.9, [Indoor]),
    Profile("Archery/Shooting", 0.5, 0.5, 0.4, 0.1, 0.5, 0.3, 1.0, 0.2, 0.6, 0.0, 0.1, [Outdoor, Indoor])
  ]

  /** Every ideal attribute of the built-in catalog lies in [0,1], so every
      built-in score lies in [0,100]. */
  lemma SportsDbUnit()
    ensures |SportsDb| == 12
    ensures forall s | s in SportsDb :: UnitSport(s)
  {
  }

  /** The catalog's sport names, in catalog order. */
  const SportNames: seq<string> := [
    "Basketball", "Football (Soccer)", "Cricket (Fast Bowling)", "Badminton",
    "Weightlifting", "Swimming", "Chess", "Table Tennis", "Kabaddi",
    "Athletics (Sprinting)", "Wrestling", "Archery/Shooting" ]

  lemma SportNamesMatch()
    ensures |SportNames| == |SportsDb|
    ensures forall i | 0 <= i < |SportsDb| :: SportsDb[i].name == SportNames[i]
  {
  }

  lemma NoUpperR(i: int)
    requires 0 <= i < |SportNames|
    ensures 'R' !in SportNames[i]
  {
    if i == 0 { } else if i == 1 { } else if i == 2 { } else if i == 3 { }
    else if i == 4 { } else if i == 5 { } else if i == 6 { } else if i == 7 { }
    else if i == 8 { } else if i == 9 { } else if i == 10 { } else { }
  }

  /** No built-in sport's name contains "Running" (none even holds an
      upper-case R), so in the mountains no built-in sport gets the full
      bonus of 1.0 and none gets 0.8. */
  lemma MountainRuleNeverFires(stats: PhysicalStats)
    requires stats.locationType == Mountain
    ensures forall i | 0 <= i < |SportsDb| :: EnvFit(stats, SportsDb[i]) in {0.2, 0.5, 0.9}
  {
    SportNamesMatch();
    forall i | 0 <= i < |SportsDb| ensures !Contains(SportsDb[i].name, "Running") {
      NoUpperR(i);
      if Contains(SportsDb[i].name, "Running") {
        ContainsFirstChar(SportsDb[i].name, "Running");
      }
    }
  }
}
