/** The holistic aggregator: the four raw score maps (skills,
    personality, sports, creative) become normalised indices, five
    academic streams and five career domains ranked by fixed linear
    formulas, the three strongest of four sports and creative families,
    and a personality label. The maps are the stored ones, passed in. */
module RecommendationEngine {
  import opened Common
  import opened StableSort
  import opened ScoreMaps

  /** The five academic streams; each one's title and reason are fixed by
      `StreamTitle` and `StreamReason`. */
  datatype StreamKind = Pcm | Pcb | Commerce | Arts | Vocational

  /** The five career domains, with titles, reasons and steps below. */
  datatype CareerKind = AiTech | Business | CivilServices | Healthcare | Design

  datatype SportFamily = Strategic | Power | Reflexes | Stamina

  datatype CreativeField = Music | VisualArts | PerformingArts | CreativeBusiness

  datatype Stream = Stream(kind: StreamKind, score: real)

  datatype Career = Career(kind: CareerKind, score: real)

  /** A sport family or a creative field and its score. */
  datatype Pick<K> = Pick(kind: K, score: real)

  datatype HolisticProfile = HolisticProfile(
    cognitive: int,
    personalityType: string,
    sportsAptitude: int,
    creativeIndex: int,
    academic: seq<Stream>,
    careers: seq<Career>,
    sports: seq<Pick<SportFamily>>,
    creative: seq<Pick<CreativeField>>)

  function StreamTitle(k: StreamKind): string
  {
    match k
    case Pcm => "PCM (Engineering / Phy-Math)"
    case Pcb => "PCB (Medical / Bio)"
    case Commerce => "Commerce & Finance"
    case Arts => "Arts & Humanities"
    case Vocational => "Vocational / Technical"
  }

  function StreamReason(k: StreamKind): string
  {
    match k
    case Pcm => "High affinity for logic, numbers, and spatial reasoning."
    case Pcb => "Balanced analytical skills with potential interest in life sciences."
    case Commerce => "Strong numerical ability combined with a structured mindset."
    case Arts => "Excellent verbal skills and high emotional intelligence."
    case Vocational => "Preference for hands-on, practical application of skills."
  }

  function CareerTitle(k: CareerKind): string
  {
    match k
    case AiTech => "AI, Tech & Data Science"
    case Business => "Entrepreneurship & Business"
    case CivilServices => "Civil Services & Governance"
    case Healthcare => "Healthcare & Social Impact"
    case Design => "Design & Architecture"
  }

  function CareerReason(k: CareerKind): string
  {
    match k
    case AiTech => "Requires abstract logic and ability to innovate."
    case Business => "Matches high leadership drive and risk appetite."
    case CivilServices => "Ideal for those valuing stability, structure, and verbal command."
    case Healthcare => "Driven by empathy and ability to understand others."
    case Design => "Strong spatial visualization mixed with creativity."
  }

  function CareerSteps(k: CareerKind): seq<string>
  {
    match k
    case AiTech => ["Learn Python", "Master Statistics", "Build ML Projects"]
    case Business => ["Start a small project", "Learn Sales", "Network"]
    case CivilServices => ["Read Newspapers Daily", "Understand Constitution", "Mock Debates"]
    case Healthcare => ["Volunteer", "Study Biology/Psychology", "Soft Skills Training"]
    case Design => ["Sketch Daily", "Learn CAD", "Study Design History"]
  }

  function SportFamilyTitle(k: SportFamily): string
  {
    match k
    case Strategic => "Strategic (Chess/Cricket Capt)"
    case Power => "Power (Wrestling/Throws)"
    case Reflexes => "Reflex (Badminton/TT)"
    case Stamina => "Endurance (Running/Football)"
  }

  function CreativeFieldTitle(k: CreativeField): string
  {
    match k
    case Music => "Music & Sound"
    case VisualArts => "Visual Arts & Design"
    case PerformingArts => "Performing Arts"
    case CreativeBusiness => "Creative Business"
  }

  const SkillMax: real := 30.0
  const PsychMax: real := 20.0

  /** `val ? Math.min(100, val / max * 100) : 0`: a percentage of `max`
      capped at 100, with an absent or zero value giving 0. */
  function Normalize(val: Option<int>, max: real): (r: real)
    requires max > 0.0
    ensures val.None? || val.value == 0 ==> r == 0.0
    ensures r <= 100.0
    ensures val.Some? && val.value >= 0 ==> 0.0 <= r
    ensures val.Some? && val.value as real >= max ==> r == 100.0
    ensures val.Some? && 0.0 <= val.value as real <= max ==> r * max == val.value as real * 100.0
  {
    if val.Some? && val.value != 0 then
      PercentBounds(val.value as real, max);
      MinReal(100.0, val.value as real / max * 100.0)
    else 0.0
  }

  /** How `v / max * 100` sits against 0 and 100. */
  lemma PercentBounds(v: real, max: real)
    requires max > 0.0
    ensures (v / max * 100.0) * max == v * 100.0
    ensures v >= max ==> v / max * 100.0 >= 100.0
    ensures v <= max ==> v / max * 100.0 <= 100.0
    ensures v >= 0.0 ==> v / max * 100.0 >= 0.0
  {
    var q := v / max;
    assert q * max == v;
    if v >= max {
      assert q >= 1.0;
    }
    if v <= max {
      assert q <= 1.0;
    }
  }

  /** `a || b` on two optional numbers: `a` when it is present and non-zero. */
  function OrElse(a: Option<int>, b: Option<int>): (r: Option<int>)
    ensures a.Some? && a.value != 0 ==> r == a
    ensures a.None? || a.value == 0 ==> r == b
  {
    if a.Some? && a.value != 0 then a else b
  }

  /** The normalised indices every formula draws on. */
  datatype Indices = Indices(
    logical: real, numerical: real, verbal: real, spatial: real, practical: real,
    leadership: real, risk: real, stability: real, eq: real, innovation: real)

  /** `r` is the index a raw value gets against `max`: 0 for an absent or
      zero value, 100 at or above `max`, and otherwise the value's share
      of `max` as a percentage. */
  ghost predicate PercentOf(val: Option<int>, max: real, r: real)
  {
    && (val.None? || val.value == 0 ==> r == 0.0)
    && (val.Some? && val.value as real >= max ==> r == 100.0)
    && (val.Some? && val.value as real <= max ==> r * max == val.value as real * 100.0)
  }

  /** An index that adds two percentages. */
  ghost predicate SumOfPercents(a: Option<int>, b: Option<int>, max: real, r: real)
  {
    exists pa, pb | PercentOf(a, max, pa) && PercentOf(b, max, pb) :: r == pa + pb
  }

  /** Each index is the percentage of its own key: skills out of 30,
      personality traits out of 20; the practical index reads 'Practical'
      and falls back to 'Technical'; stability and emotional intelligence
      add two traits each. */
  function MakeIndices(skill: ScoreMap, psych: ScoreMap): (ix: Indices)
    ensures PercentOf(Get(skill, "Logical"), 30.0, ix.logical)
    ensures PercentOf(Get(skill, "Numerical"), 30.0, ix.numerical)
    ensures PercentOf(Get(skill, "Verbal"), 30.0, ix.verbal)
    ensures PercentOf(Get(skill, "Spatial"), 30.0, ix.spatial)
    ensures Get(skill, "Practical").Some? && Get(skill, "Practical").value != 0 ==>
              PercentOf(Get(skill, "Practical"), 30.0, ix.practical)
    ensures Get(skill, "Practical").None? || Get(skill, "Practical").value == 0 ==>
              PercentOf(Get(skill, "Technical"), 30.0, ix.practical)
    ensures PercentOf(Get(psych, "Extraversion"), 20.0, ix.leadership)
    ensures PercentOf(Get(psych, "RiskTaking"), 20.0, ix.risk)
    ensures SumOfPercents(Get(psych, "Conscientiousness"), Get(psych, "Stability"), 20.0, ix.stability)
    ensures SumOfPercents(Get(psych, "Agreeableness"), Get(psych, "Empathy"), 20.0, ix.eq)
    ensures PercentOf(Get(psych, "Openness"), 20.0, ix.innovation)
  {
    Indices(
      Normalize(Get(skill, "Logical"), SkillMax),
      Normalize(Get(skill, "Numerical"), SkillMax),
      Normalize(Get(skill, "Verbal"), SkillMax),
      Normalize(Get(skill, "Spatial"), SkillMax),
      Normalize(OrElse(Get(skill, "Practical"), Get(skill, "Technical")), SkillMax),
      Normalize(Get(psych, "Extraversion"), PsychMax),
      Normalize(Get(psych, "RiskTaking"), PsychMax),
      SumOfNormalized(Get(psych, "Conscientiousness"), Get(psych, "Stability")),
      SumOfNormalized(Get(psych, "Agreeableness"), Get(psych, "Empathy")),
      Normalize(Get(psych, "Openness"), PsychMax))
  }

  /** Two personality percentages added. */
  function SumOfNormalized(a: Option<int>, b: Option<int>): (r: real)
    ensures SumOfPercents(a, b, PsychMax, r)
  {
    var pa := Normalize(a, PsychMax);
    var pb := Normalize(b, PsychMax);
    assert PercentOf(a, PsychMax, pa) && PercentOf(b, PsychMax, pb);
    pa + pb
  }

  /** The practical index reads 'Practical' when it is present and
      non-zero, and falls back to 'Technical' otherwise. */
  lemma PracticalFallback(skill: ScoreMap, psych: ScoreMap)
    ensures var p := Get(skill, "Practical");
      && (p.Some? && p.value != 0 ==> MakeIndices(skill, psych).practical == Normalize(p, SkillMax))
      && (p.None? || p.value == 0 ==>
            MakeIndices(skill, psych).practical == Normalize(Get(skill, "Technical"), SkillMax))
  {
  }

  /** Every value of the map is non-negative. */
  ghost predicate NonNegative(m: ScoreMap)
  {
    forall e | e in m :: e.value >= 0
  }

  /** With non-negative raw scores every single index lies in [0,100] and
      each of the two summed indices in [0,200]. */
  lemma IndicesBounds(skill: ScoreMap, psych: ScoreMap)
    requires NonNegative(skill) && NonNegative(psych)
    ensures var ix := MakeIndices(skill, psych);
      && 0.0 <= ix.logical <= 100.0 && 0.0 <= ix.numerical <= 100.0
      && 0.0 <= ix.verbal <= 100.0 && 0.0 <= ix.spatial <= 100.0
      && 0.0 <= ix.practical <= 100.0
      && 0.0 <= ix.leadership <= 100.0 && 0.0 <= ix.risk <= 100.0
      && 0.0 <= ix.innovation <= 100.0
      && 0.0 <= ix.stability <= 200.0 && 0.0 <= ix.eq <= 200.0
  {
  }

  function StreamScore(s: Stream): real { s.score }
  function CareerScore(c: Career): real { c.score }
  function PickScore<K>(p: Pick<K>): real { p.score }

  /** The five academic streams in their declared order, before ranking. */
  function StreamCandidates(ix: Indices, biologyBoost: real): seq<Stream>
  {
    [ Stream(Pcm, ix.numerical * 0.4 + ix.logical * 0.3 + ix.spatial * 0.3),
      Stream(Pcb, ix.verbal * 0.3 + ix.logical * 0.3 + biologyBoost),
      Stream(Commerce, ix.numerical * 0.5 + ix.verbal * 0.2 + ix.stability * 0.3),
      Stream(Arts, ix.verbal * 0.5 + ix.eq * 0.3 + ix.innovation * 0.2),
      Stream(Vocational, ix.practical * 0.5 + ix.spatial * 0.3 + ix.stability * 0.2) ]
  }

  /** `skillScores['Biology'] ? 40 : 20`. */
  function PcbBoost(skill: ScoreMap): (r: real)
    ensures r == 40.0 <==> Get(skill, "Biology").Some? && Get(skill, "Biology").value != 0
    ensures r == 40.0 || r == 20.0
  {
    var b := Get(skill, "Biology");
    if b.Some? && b.value != 0 then 40.0 else 20.0
  }

  /** The five career domains in their declared order, before ranking. */
  function CareerCandidates(ix: Indices, creativeTotal: int): seq<Career>
  {
    [ Career(AiTech, ix.logical * 0.4 + ix.numerical * 0.3 + ix.innovation * 0.3),
      Career(Business, ix.leadership * 0.4 + ix.risk * 0.4 + ix.logical * 0.2),
      Career(CivilServices, ix.verbal * 0.3 + ix.stability * 0.4 + ix.logical * 0.3),
      Career(Healthcare, ix.eq * 0.5 + ix.verbal * 0.3 + ix.logical * 0.2),
      Career(Design, ix.spatial * 0.5 + ix.innovation * 0.3 + DesignBoost(creativeTotal)) ]
  }

  /** `creative_total > 50 ? 20 : 0`. */
  function DesignBoost(creativeTotal: int): (r: real)
    ensures r == 20.0 <==> creativeTotal > 50
    ensures r == 0.0 <==> creativeTotal <= 50
  {
    if creativeTotal > 50 then 20.0 else 0.0
  }

  /** The four sport families: a stored category score times 3. */
  function SportCandidates(sports: ScoreMap): seq<Pick<SportFamily>>
  {
    [ Pick(Strategic, GetOr0(sports, "Tactical") as real * 3.0),
      Pick(Power, GetOr0(sports, "Strength") as real * 3.0),
      Pick(Reflexes, GetOr0(sports, "Reflex") as real * 3.0),
      Pick(Stamina, GetOr0(sports, "Endurance") as real * 3.0) ]
  }

  /** The four creative fields: a stored category score times 8. */
  function CreativeCandidates(creative: ScoreMap): seq<Pick<CreativeField>>
  {
    [ Pick(Music, GetOr0(creative, "Music") as real * 8.0),
      Pick(VisualArts, GetOr0(creative, "Visual Arts") as real * 8.0),
      Pick(PerformingArts, GetOr0(creative, "Performing Arts") as real * 8.0),
      Pick(CreativeBusiness, GetOr0(creative, "Creative") as real * 8.0) ]
  }

  /** The nested conditional: the first trait above 70 in the order
      leadership, emotional intelligence, innovation; "Analyst" otherwise. */
  function PersonalityType(ix: Indices): (r: string)
    ensures ix.leadership > 70.0 ==> r == "Commander"
    ensures ix.leadership <= 70.0 && ix.eq > 70.0 ==> r == "Empath"
    ensures ix.leadership <= 70.0 && ix.eq <= 70.0 && ix.innovation > 70.0 ==> r == "Innovator"
    ensures r == "Analyst" <==> ix.leadership <= 70.0 && ix.eq <= 70.0 && ix.innovation <= 70.0
  {
    if ix.leadership > 70.0 then "Commander"
    else if ix.eq > 70.0 then "Empath"
    else if ix.innovation > 70.0 then "Innovator"
    else "Analyst"
  }

  /** The rounded mean of the four skill indices. */
  function Cognitive(ix: Indices): int
  {
    Round((ix.logical + ix.numerical + ix.verbal + ix.spatial) / 4.0)
  }

  /** Streams ranked best first: the same streams, each as often. */
  function RankStreams(c: seq<Stream>): (r: seq<Stream>)
    ensures |r| == |c|
    ensures multiset(r) == multiset(c)
    ensures forall i, j | 0 <= i < j < |r| :: r[i].score >= r[j].score
  {
    var r := SortDesc(c, StreamScore);
    assert SortedDesc(r, StreamScore);
    r
  }

  /** Career domains ranked best first: the same domains, each as often. */
  function RankCareers(c: seq<Career>): (r: seq<Career>)
    ensures |r| == |c|
    ensures multiset(r) == multiset(c)
    ensures forall i, j | 0 <= i < j < |r| :: r[i].score >= r[j].score
  {
    var r := SortDesc(c, CareerScore);
    assert SortedDesc(r, CareerScore);
    r
  }

  /** The three best of a list of picks, best first; the ones left out
      score no higher than any kept. */
  function TopThree<K>(candidates: seq<Pick<K>>): (r: seq<Pick<K>>)
    requires |candidates| >= 3
    ensures |r| == 3
    ensures multiset(r) <= multiset(candidates)
    ensures forall i, j | 0 <= i < j < |r| :: r[i].score >= r[j].score
    ensures forall x | x in candidates && x !in r :: forall y | y in r :: y.score >= x.score
  {
    var r := TopK(candidates, PickScore, 3);
    assert SortedDesc(r, PickScore);
    r
  }

  /** The profile built from the four maps. */
  function BuildProfile(skill: ScoreMap, psych: ScoreMap, sports: ScoreMap, creative: ScoreMap)
    : HolisticProfile
  {
    var ix := MakeIndices(skill, psych);
    HolisticProfile(
      Cognitive(ix),
      PersonalityType(ix),
      Round(Sum(sports) as real / 2.0),
      Round(Sum(creative) as real / 1.5),
      RankStreams(StreamCandidates(ix, PcbBoost(skill))),
      RankCareers(CareerCandidates(ix, Sum(creative))),
      TopThree(SportCandidates(sports)),
      TopThree(CreativeCandidates(creative)))
  }

  /** The whole profile, or `None` when neither a skill nor a psych score
      has been stored. */
  function GenerateHolisticProfile(skill: ScoreMap, psych: ScoreMap, sports: ScoreMap, creative: ScoreMap)
    : (r: Option<HolisticProfile>)
    ensures r.None? <==> |skill| == 0 && |psych| == 0
  {
    if |skill| == 0 && |psych| == 0 then None
    else Some(BuildProfile(skill, psych, sports, creative))
  }

  /** Only the skill and psych maps decide whether there is a profile: the
      sports and creative maps never do. */
  lemma NullOnlyWithoutSkillAndPsych(skill: ScoreMap, psych: ScoreMap,
                                     s1: ScoreMap, c1: ScoreMap, s2: ScoreMap, c2: ScoreMap)
    ensures GenerateHolisticProfile(skill, psych, s1, c1).None?
        <==> GenerateHolisticProfile(skill, psych, s2, c2).None?
    ensures GenerateHolisticProfile(skill, psych, s1, c1).None? <==> Keys(skill) == [] && Keys(psych) == []
  {
  }

  /** Five streams and five domains are always listed. */
  lemma ListLengths(skill: ScoreMap, psych: ScoreMap, sports: ScoreMap, creative: ScoreMap)
    ensures |BuildProfile(skill, psych, sports, creative).academic| == 5
    ensures |BuildProfile(skill, psych, sports, creative).careers| == 5
    ensures |BuildProfile(skill, psych, sports, creative).sports| == 3
    ensures |BuildProfile(skill, psych, sports, creative).creative| == 3
  {
  }

  lemma StreamKept(c: seq<Stream>, i: nat)
    requires i < |c|
    ensures c[i] in RankStreams(c)
  {
    PermutationKeeps(c, RankStreams(c), i);
  }

  lemma CareerKept(c: seq<Career>, i: nat)
    requires i < |c|
    ensures c[i] in RankCareers(c)
  {
    PermutationKeeps(c, RankCareers(c), i);
  }

  /** The PCB stream is always listed, with its Biology boost (40 or 20,
      see `PcbBoost`) added to its base score. */
  lemma PcbBoostSpec(ix: Indices, biologyBoost: real)
    ensures Stream(Pcb, ix.verbal * 0.3 + ix.logical * 0.3 + biologyBoost)
        in RankStreams(StreamCandidates(ix, biologyBoost))
  {
    var sc := StreamCandidates(ix, biologyBoost);
    assert sc[1] == Stream(Pcb, ix.verbal * 0.3 + ix.logical * 0.3 + biologyBoost);
    StreamKept(sc, 1);
  }

  /** The Design domain is always listed, with 20 added exactly when the
      creative total exceeds 50. */
  lemma DesignBoostSpec(ix: Indices, creativeTotal: int)
    ensures Career(Design, ix.spatial * 0.5 + ix.innovation * 0.3 + (if creativeTotal > 50 then 20.0 else 0.0))
        in RankCareers(CareerCandidates(ix, creativeTotal))
  {
    var cc := CareerCandidates(ix, creativeTotal);
    assert cc[4] == Career(Design, ix.spatial * 0.5 + ix.innovation * 0.3 + (if creativeTotal > 50 then 20.0 else 0.0));
    CareerKept(cc, 4);
  }

  /** With non-negative skill scores the cognitive index lies in [0,100]. */
  lemma CognitiveBounds(skill: ScoreMap, psych: ScoreMap)
    requires NonNegative(skill) && NonNegative(psych)
    ensures 0 <= Cognitive(MakeIndices(skill, psych)) <= 100
  {
    var ix := MakeIndices(skill, psych);
    IndicesBounds(skill, psych);
    RoundWithin((ix.logical + ix.numerical + ix.verbal + ix.spatial) / 4.0, 0, 100);
  }
}
