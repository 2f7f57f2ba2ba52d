/** The client-side learning engine: a consent flag, a telemetry log that
    keeps the last 50 entries, feature vectors for students and for
    professionals, and a keyword audit of recommendations. The static
    fields of `LearningEngine` and the two storage keys it uses are the
    fields of `Engine`; ids from `crypto.randomUUID`, timestamps, log
    metadata and console output are not modelled. */
module LearningEngine {
  import opened Common

  datatype Action =
    | ViewResults
    | ClickCareer
    | FeedbackThumbsUp
    | FeedbackThumbsDown
    | DownloadReport
    | TimeOnPage
    | SubmitProfessionalData

  datatype LogEntry = LogEntry(sessionId: string, action: Action, targetId: Option<string>)

  const LogCap: nat := 50

  /** The named dimensions; `economicScore` is not part of the raw vector. */
  datatype Dimensions = Dimensions(
    logical: real,
    verbal: real,
    numerical: real,
    technical: real,
    creative: real,
    sports: real,
    economicScore: real)

  datatype FeatureVector = FeatureVector(vectorId: string, dimensions: Dimensions, rawVector: seq<real>)

  datatype RadarPoint = RadarPoint(subject: string, score: real, fullMark: real)

  /** The part of an assessment result the vectoriser reads. */
  datatype AssessmentResult = AssessmentResult(
    cognitiveStrengths: seq<string>,
    sportsRecommendations: Option<seq<string>>,
    radarData: Option<seq<RadarPoint>>)

  /** The part of a professional's submission the vectoriser reads; the
      skills are on a 1-5 scale. */
  datatype Professional = Professional(
    id: string,
    socioEconomic: Option<string>,
    sector: string,
    logical: real,
    numerical: real,
    communication: real,
    physical: real,
    creative: real,
    consent: bool)

  datatype Audit = Audit(flagged: bool, reason: Option<string>)

  const UnderMatching: string :=
    "Potential Under-matching: Student has Technical strengths but recommendations lack Technical keywords."

  /** The model input, in the fixed order logical, verbal, numerical,
      technical, creative, sports. */
  function RawVector(d: Dimensions): seq<real>
  {
    [d.logical, d.verbal, d.numerical, d.technical, d.creative, d.sports]
  }

  /** The last `n` entries of `s`, as `s.slice(-n)`. */
  function LastEntries<T>(s: seq<T>, n: nat): (r: seq<T>)
    ensures |r| == Min(n, |s|)
    ensures forall i | 0 <= i < |r| :: r[i] == s[|s| - |r| + i]
  {
    if |s| <= n then s else s[|s| - n..]
  }

  /** After appending an entry, the window ends with that entry and keeps
      the entries before it in order. */
  lemma WindowKeepsNewest<T>(logs: seq<T>, e: T)
    ensures var w := LastEntries(logs + [e], LogCap);
            && w[|w| - 1] == e
            && |w| <= LogCap
            && (|logs| < LogCap ==> w == logs + [e])
            && w[..|w| - 1] == LastEntries(logs, LogCap - 1)
  {
    var s := logs + [e];
    var w := LastEntries(s, LogCap);
    var v := LastEntries(logs, LogCap - 1);
    if |logs| < LogCap {
      assert w == s;
      assert v == logs;
      assert w[..|w| - 1] == logs;
    } else {
      assert w == s[|s| - LogCap..];
      assert v == logs[|logs| - (LogCap - 1)..];
      assert s[|s| - LogCap..][..LogCap - 1] == logs[|logs| - (LogCap - 1)..];
    }
  }

  /** `(val - 1) / 4`: the 1-5 scale onto [0, 1]. */
  function Likert(v: real): (r: real)
    ensures r * 4.0 + 1.0 == v
    ensures 1.0 <= v <= 5.0 ==> 0.0 <= r <= 1.0
  {
    (v - 1.0) / 4.0
  }

  /** The ends of the scale and its order. */
  lemma LikertScale(v: real, w: real)
    ensures Likert(1.0) == 0.0 && Likert(5.0) == 1.0 && Likert(3.0) == 0.5
    ensures v <= w ==> Likert(v) <= Likert(w)
  {
  }

  /** 0.9 for a technology or engineering sector, 0.5 otherwise. */
  function Technical(sector: string): (r: real)
    ensures r == 0.9 <==> Contains(sector, "Tech") || Contains(sector, "Engineer")
    ensures r == 0.5 <==> !(Contains(sector, "Tech") || Contains(sector, "Engineer"))
  {
    if Contains(sector, "Tech") || Contains(sector, "Engineer") then 0.9 else 0.5
  }

  /** 0.2 for "Low", 0.5 for "Mid", 0.8 for anything else, including a
      missing answer. */
  function Economic(socioEconomic: Option<string>): (r: real)
    ensures socioEconomic == Some("Low") <==> r == 0.2
    ensures socioEconomic == Some("Mid") <==> r == 0.5
    ensures socioEconomic != Some("Low") && socioEconomic != Some("Mid") <==> r == 0.8
  {
    if socioEconomic == Some("Low") then 0.2
    else if socioEconomic == Some("Mid") then 0.5
    else 0.8
  }

  /** The professional's ground-truth vector. */
  function ProfessionalVector(data: Professional): (r: FeatureVector)
    ensures r.vectorId == "prof_" + data.id
    ensures r.rawVector == RawVector(r.dimensions)
  {
    var d := Dimensions(
      Likert(data.logical),
      Likert(data.communication),
      Likert(data.numerical),
      Technical(data.sector),
      Likert(data.creative),
      Likert(data.physical),
      Economic(data.socioEconomic));
    FeatureVector("prof_" + data.id, d, RawVector(d))
  }

  /** With every skill on the 1-5 scale, all six inputs and the economic
      score lie in [0, 1]. Each of the five Likert skills inverts to its
      rating through `(v - 1) / 4`, in the order logical, communication
      (the verbal dimension), numerical, creative, physical (the sports
      dimension); the technical input is the sector's score and the
      economic score the band's. */
  lemma ProfessionalVectorSpec(data: Professional)
    requires 1.0 <= data.logical <= 5.0 && 1.0 <= data.numerical <= 5.0
    requires 1.0 <= data.communication <= 5.0 && 1.0 <= data.physical <= 5.0
    requires 1.0 <= data.creative <= 5.0
    ensures var r := ProfessionalVector(data);
            && |r.rawVector| == 6
            && (forall i | 0 <= i < 6 :: 0.0 <= r.rawVector[i] <= 1.0)
            && 0.0 <= r.dimensions.economicScore <= 1.0
            && r.rawVector[0] * 4.0 + 1.0 == data.logical
            && r.rawVector[1] * 4.0 + 1.0 == data.communication
            && r.rawVector[2] * 4.0 + 1.0 == data.numerical
            && r.rawVector[3] == Technical(data.sector)
            && r.rawVector[4] * 4.0 + 1.0 == data.creative
            && r.rawVector[5] * 4.0 + 1.0 == data.physical
            && r.dimensions.economicScore == Economic(data.socioEconomic)
  {
    var r := ProfessionalVector(data);
    assert r.rawVector == [Likert(data.logical), Likert(data.communication), Likert(data.numerical),
                           Technical(data.sector), Likert(data.creative), Likert(data.physical)];
  }

  /** The first radar point for `subj`, as `radarData.find(...)`. */
  function FindPoint(points: seq<RadarPoint>, subj: string): (r: Option<RadarPoint>)
    ensures r.None? <==> forall p | p in points :: p.subject != subj
    ensures r.Some? ==> r.value in points && r.value.subject == subj
  {
    if points == [] then None
    else if points[0].subject == subj then Some(points[0])
    else FindPoint(points[1..], subj)
  }

  /** The point found is the first one for `subj`. */
  lemma {:induction false} FindPointFirst(points: seq<RadarPoint>, subj: string)
    requires FindPoint(points, subj).Some?
    ensures exists i | 0 <= i < |points| ::
              points[i] == FindPoint(points, subj).value
              && forall j | 0 <= j < i :: points[j].subject != subj
  {
    if points[0].subject != subj {
      var rest := points[1..];
      FindPointFirst(rest, subj);
      var i :| 0 <= i < |rest| && rest[i] == FindPoint(rest, subj).value
               && forall j | 0 <= j < i :: rest[j].subject != subj;
      assert points[i + 1] == FindPoint(points, subj).value;
      assert forall j | 0 <= j < i + 1 :: points[j].subject != subj by {
        forall j | 0 <= j < i + 1 ensures points[j].subject != subj {
          if j > 0 {
            assert points[j] == rest[j - 1];
          }
        }
      }
    } else {
      assert points[0] == FindPoint(points, subj).value;
    }
  }

  /** Point `i` is the first one for `subj`. */
  predicate FirstFor(points: seq<RadarPoint>, subj: string, i: int)
  {
    0 <= i < |points| && points[i].subject == subj
    && forall j | 0 <= j < i :: points[j].subject != subj
  }

  /** `find` returns the first point for `subj`, wherever it stands. */
  lemma {:induction false} FindPointAt(points: seq<RadarPoint>, subj: string)
    ensures forall i | FirstFor(points, subj, i) :: FindPoint(points, subj) == Some(points[i])
  {
    if points != [] && points[0].subject != subj {
      var rest := points[1..];
      FindPointAt(rest, subj);
      forall i | FirstFor(points, subj, i)
        ensures FindPoint(points, subj) == Some(points[i])
      {
        assert i > 0;
        forall j | 0 <= j < i - 1
          ensures rest[j].subject != subj
        {
          assert rest[j] == points[j + 1];
        }
        assert FirstFor(rest, subj, i - 1);
      }
    }
  }

  /** The full mark a score is divided by: `fullMark || 100`. */
  function FullMarkOr100(p: RadarPoint): real
  {
    if p.fullMark != 0.0 then p.fullMark else 100.0
  }

  /** `getScore`: the first point's score over its full mark (100 when the
      full mark is 0), and 0 without radar data or without that subject. */
  function GetScore(radarData: Option<seq<RadarPoint>>, subj: string): (r: real)
    ensures radarData.None? ==> r == 0.0
    ensures radarData.Some? && (forall p | p in radarData.value :: p.subject != subj) ==> r == 0.0
    ensures radarData.Some? ==>
              forall i | FirstFor(radarData.value, subj, i) ::
                r * FullMarkOr100(radarData.value[i]) == radarData.value[i].score
  {
    if radarData.None? then 0.0
    else
      FindPointAt(radarData.value, subj);
      match FindPoint(radarData.value, subj)
      case None => 0.0
      case Some(p) => p.score / FullMarkOr100(p)
  }

  /** Some element satisfies `f`, as `array.some(f)`. */
  function Any<T>(s: seq<T>, f: T -> bool): (r: bool)
    ensures r <==> exists x | x in s :: f(x)
  {
    if s == [] then false
    else if f(s[0]) then true
    else
      var r := Any(s[1..], f);
      assert forall x | x in s[1..] :: x in s;
      assert forall x | x in s && x != s[0] :: x in s[1..];
      r
  }

  predicate CreativeWord(s: string)
  {
    Contains(s, "Creativ") || Contains(s, "Visual")
  }

  predicate TechWord(s: string)
  {
    Contains(s, "Logic") || Contains(s, "Math") || Contains(s, "Tech")
  }

  /** `generateFeatureVector` for a student; `vectorId` is a parameter
      standing for the random id. */
  function StudentVector(vectorId: string, result: AssessmentResult): (r: FeatureVector)
    ensures r.rawVector == RawVector(r.dimensions)
    ensures r.dimensions.creative == 0.8 <==> exists s | s in result.cognitiveStrengths :: CreativeWord(s)
    ensures r.dimensions.creative == 0.2 <==> !exists s | s in result.cognitiveStrengths :: CreativeWord(s)
    ensures r.dimensions.sports == 0.9 <==>
              result.sportsRecommendations.Some? && |result.sportsRecommendations.value| > 0
    ensures r.dimensions.sports == 0.1 <==>
              result.sportsRecommendations.None? || result.sportsRecommendations.value == []
    ensures r.dimensions.economicScore == 0.5
    ensures r.dimensions.logical == GetScore(result.radarData, "Logical")
    ensures r.dimensions.verbal == GetScore(result.radarData, "Verbal")
    ensures r.dimensions.numerical == GetScore(result.radarData, "Numerical")
    ensures r.dimensions.technical == GetScore(result.radarData, "Technical")
  {
    var d := Dimensions(
      GetScore(result.radarData, "Logical"),
      GetScore(result.radarData, "Verbal"),
      GetScore(result.radarData, "Numerical"),
      GetScore(result.radarData, "Technical"),
      if Any(result.cognitiveStrengths, CreativeWord) then 0.8 else 0.2,
      if result.sportsRecommendations.Some? && |result.sportsRecommendations.value| > 0 then 0.9 else 0.1,
      0.5);
    FeatureVector(vectorId, d, RawVector(d))
  }

  /** `auditRecommendations`: flagged exactly when a strength mentions
      logic, maths or technology and the lower-cased summary mentions
      neither "tech" nor "engineer". */
  function AuditRecommendations(summary: string, strengths: seq<string>): (r: Audit)
    ensures r.flagged <==>
              (exists s | s in strengths :: TechWord(s))
              && !Contains(ToLower(summary), "tech") && !Contains(ToLower(summary), "engineer")
    ensures r.flagged <==> r.reason.Some?
  {
    var hasTechStrength := Any(strengths, TechWord);
    var summaryLowTech := !Contains(ToLower(summary), "tech") && !Contains(ToLower(summary), "engineer");
    if hasTechStrength && summaryLowTech then Audit(true, Some(UnderMatching))
    else Audit(false, None)
  }

  /** A summary that names engineering is never flagged, whatever the
      strengths. */
  lemma EngineeringSummaryNotFlagged(prefix: string, suffix: string, strengths: seq<string>)
    ensures !AuditRecommendations(prefix + "Engineering" + suffix, strengths).flagged
  {
    var s := prefix + "Engineering" + suffix;
    var low := ToLower(s);
    assert low[|prefix|..|prefix| + 8] == "engineer";
    assert OccursAt(low, "engineer", |prefix|);
  }

  /** The engine's state. */
  class Engine {
    var sessionId: string
    var consentGranted: bool
    /** Whether the stored `disha_consent` item is `'true'`. */
    var storedConsent: bool
    /** The stored `disha_logs` array. */
    var logs: seq<LogEntry>

    /** Loading the module: a fresh session id (a parameter here), consent
        off, then `initialize()` reads the stored consent. */
    constructor(sessionId: string, storedConsent: bool, logs: seq<LogEntry>)
      ensures this.sessionId == sessionId && this.storedConsent == storedConsent && this.logs == logs
      ensures consentGranted == storedConsent
    {
      this.sessionId := sessionId;
      this.consentGranted := false;
      this.storedConsent := storedConsent;
      this.logs := logs;
      new;
      Initialize();
    }

    /** `initialize`: consent is whatever storage says. */
    method Initialize()
      modifies this
      ensures consentGranted == storedConsent
      ensures sessionId == old(sessionId) && storedConsent == old(storedConsent) && logs == old(logs)
    {
      consentGranted := storedConsent;
    }

    /** `setConsent`: granting is stored, revoking is not, so a revoked
        consent comes back at the next `initialize` if it was ever
        granted. */
    method SetConsent(granted: bool)
      modifies this
      ensures consentGranted == granted
      ensures storedConsent == (granted || old(storedConsent))
      ensures sessionId == old(sessionId) && logs == old(logs)
    {
      consentGranted := granted;
      if granted {
        storedConsent := true;
      }
    }

    /** `hasConsent`. */
    function HasConsent(): bool
      reads this
    {
      consentGranted
    }

    /** `logInteraction`: without consent nothing happens; otherwise the
        entry is pushed and the stored log is cut to its last 50 entries. */
    method LogInteraction(action: Action, targetId: Option<string>)
      modifies this
      ensures !old(consentGranted) ==> logs == old(logs)
      ensures old(consentGranted) ==>
                logs == LastEntries(old(logs) + [LogEntry(sessionId, action, targetId)], LogCap)
      ensures sessionId == old(sessionId) && consentGranted == old(consentGranted)
      ensures storedConsent == old(storedConsent)
    {
      if !HasConsent() {
        return;
      }
      var entry := LogEntry(sessionId, action, targetId);
      var stored := logs;
      stored := stored + [entry];
      logs := LastEntries(stored, LogCap);
    }

    /** `ingestProfessionalData`: `null` without the professional's consent;
        otherwise the vector, and a `SUBMIT_PROFESSIONAL_DATA` entry for the
        professional's id is logged (when the user's consent is on). */
    method IngestProfessionalData(data: Professional) returns (r: Option<FeatureVector>)
      modifies this
      ensures r.None? <==> !data.consent
      ensures r.Some? ==> r.value == ProfessionalVector(data)
      ensures !data.consent || !old(consentGranted) ==> logs == old(logs)
      ensures data.consent && old(consentGranted) ==>
                logs == LastEntries(old(logs) + [LogEntry(sessionId, SubmitProfessionalData, Some(data.id))], LogCap)
      ensures sessionId == old(sessionId) && consentGranted == old(consentGranted)
      ensures storedConsent == old(storedConsent)
    {
      if !data.consent {
        return None;
      }
      var vector := ProfessionalVector(data);
      LogInteraction(SubmitProfessionalData, Some(data.id));
      r := Some(vector);
    }
  }
}
