/** The catalog record shapes the engines and finder screens work on.
    Display-only fields (links, websites, benefit texts, bilingual
    question texts) are not carried. */
module Records {
  import opened Common
  import opened Calendar

  /** A scholarship. Optional fields are `None` when the record leaves them
      undefined; the dates are the instants the stored `YYYY-MM-DD`
      strings denote, and an empty start date is `None`. */
  datatype Scholarship = Scholarship(
    id: string,
    name: string,
    provider: string,
    category: string,
    providerType: Option<string>,
    level: Option<string>,
    artField: Option<string>,
    incomeLimit: Option<real>,
    socialGroup: seq<string>,
    careerGoal: seq<string>,
    startDate: Option<Instant>,
    deadline: Instant,
    isRecurring: bool)

  datatype QuestionCategory = Cognitive | Academic | Sports | Demographic | Psychometric

  /** The score an option adds to a category of the raw score map. */
  datatype Impact = Impact(category: string, value: int)

  datatype QuestionOption = QuestionOption(value: string, scoreImpact: Option<Impact>)

  datatype Question = Question(
    id: string,
    category: QuestionCategory,
    options: seq<QuestionOption>)

  datatype Domain = Engineering | Medical | Arts | SportsDomain | Music | Vocational

  /** The domain as the catalog writes it. */
  function DomainText(d: Domain): string
  {
    match d
    case Engineering => "Engineering"
    case Medical => "Medical"
    case Arts => "Arts"
    case SportsDomain => "Sports"
    case Music => "Music"
    case Vocational => "Vocational"
  }

  datatype College = College(id: string, name: string, location: string, domain: Domain)

  datatype School = School(id: string, name: string, schoolType: string, tags: seq<string>, description: string)
}
