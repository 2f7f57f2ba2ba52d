# Career guidance engines, modelled in Dafny

The application guides school students towards streams, careers, sports, creative fields, scholarships, colleges and schools. Around its screens and its language-model calls sit a few deterministic engines and list helpers. This project models those in Dafny and proves what they promise:

- **Sports suitability scorer** (`SportsLogic`):
  - normalises a physical profile and a raw category score map into a user vector;
  - scores every catalog sport with six weighted sub-indices and a first-match environment bonus;
  - derives the match reason and at most three improvement areas;
  - returns the ten best sports, sorted stably by score.
- **Holistic aggregator** (`RecommendationEngine`):
  - turns the stored skill, personality, sports and creative maps into percentage indices;
  - builds five ranked academic streams and five ranked career domains;
  - keeps the top three sport families and the top three creative fields;
  - assigns a personality label;
  - returns nothing when the skill and personality maps are both empty.
- **Scholarship status engine** (`ScholarshipEngine`, over the date model `Calendar`):
  - moves a recurring, passed deadline to this year, or to the next year when this year's date has passed too;
  - computes the days left with a ceiling;
  - classifies the scholarship as Closed, Opening soon, Closing soon or Open.
- **Question rotation** (`QuestionEngine`):
  - splits the pool into unseen and seen questions;
  - shuffles both with Fisher–Yates on an array;
  - puts the unseen questions first and keeps `count` of them;
  - assembles the 5 + 5 + 5 mixed session;
  - keeps an attempt history of at most 200 entries.
- **Learning engine** (`LearningEngine`):
  - a consent flag;
  - the Likert and keyword feature vectors;
  - a window over the last 50 interaction logs;
  - the keyword bias audit.
- **Screens**:
  - the scholarship finder's filter, "recommended first" sort, selection toggles and recent searches (`ScholarshipFinder`, `ListState`);
  - the college browser (`TopColleges`) and the school finder (`SchoolFinder`);
  - the creative, sports, personality and skill assessments (`CreativeAssessment`, `SportsAssessment`, `PsychometricAssessment`, `AssessmentModule`). These screens build the score maps the aggregator reads.

## How the model is organised

JavaScript semantics are written out explicitly:

- **Rounding:** `Math.round` is `Floor(x + 0.5)` (`Common.Round`).
- **Truthiness:** `value || fallback` on a missing key is `ScoreMaps.GetOr0`.
- **Score maps:** a JavaScript object used as a score map keeps its keys in insertion order. It is an association list (`ScoreMaps.ScoreMap`), so `Object.entries(...).sort(...)` breaks ties the way the browser does.
- **Sorting:** every `sort((a, b) => b.score - a.score)` is one stable insertion sort (`StableSort.SortDesc`).
- **Dates:** an instant is milliseconds since the epoch, with a proleptic Gregorian civil view. `setFullYear` is `Calendar.WithYear`. It keeps the month, the day and the time of day, and moves 29 February into 1 March of a common year.

Storage, randomness and time are parameters or fields:

- **Storage:** every `localStorage` item a screen or engine reads or writes is a field of the screen's class or a parameter. This covers the score maps, the question history, the consent flag, the logs and the recent searches.
- **Randomness:** the Fisher–Yates index choice is a function parameter `pick`. A `sort(() => 0.5 - Math.random())` shuffle is any permutation of the bank, given as a parameter.
- **Time:** the current time is a parameter.
- **Catalogs:** the sports catalog is the constant `SportsLogic.SportsDb`, but the scorer takes the catalog as a parameter. The scholarship, college and school catalogs are parameters too.

Source code that changes state is modelled as imperative Dafny:

- **Array shuffle:** the in-place shuffle is a method over an `array`.
- **Selection and ranking:** the question selection and the sports ranking are methods with loops. They are proved against specification functions.
- **Screen state:** the assessment screens and each finder's search box are classes whose handlers have `modifies` clauses. The finders' filter selections (the scholarship finder's `Filters` value, the college and school finders' active filter and expanded domains) are values passed to the filter functions.
- **Learning engine:** the learning engine's static fields are an `Engine` object.

## Model

| member | source | states |
|---|---|---|
| SportsLogic.CalculateBmi | services/sportsLogic.ts:210-213 | the BMI is within 0.05 of weight / (height in metres)², the one-decimal rounding of `toFixed(1)` |
| SportsLogic.Fixed1 | services/sportsLogic.ts:212 | one-decimal rounding moves a value by at most 0.05 and keeps non-negative values non-negative |
| SportsLogic.NormalizeHeight | services/sportsLogic.ts:216-221 | the height index lies in [0,1], is 0 at or below 140 cm and 1 at or above 190 cm |
| SportsLogic.NormalizeHeightIgnoresGender | services/sportsLogic.ts:216-221 | the gender baseline is computed but unused: every gender gets the same index |
| SportsLogic.NormalizeHeightMonotone | services/sportsLogic.ts:216-221 | a taller user never gets a lower height index |
| SportsLogic.NormalizeBmi | services/sportsLogic.ts:223-227 | the BMI index lies in [0,1], is 0 at or below 15 and 1 at or above 35 |
| SportsLogic.NormalizeScore | services/sportsLogic.ts:229-232 | a category sum becomes a fraction of 30 clamped to [0,1]; inside [0,30] it is exactly sum/30 |
| SportsLogic.TeamInterest | services/sportsLogic.ts:248 | team interest is 1 exactly when the map has "Team" above 5, else 0 |
| SportsLogic.MakeUserVector | services/sportsLogic.ts:238-249 | every user-vector component lies in [0,1]; each skill component is the normalised category with a missing key counting 0 |
| SportsLogic.Similarity | services/sportsLogic.ts:258-278 | `1 - |u - i|` is at most 1, is 1 exactly when the values agree, and is non-negative for values in [0,1] |
| SportsLogic.SubIndices | services/sportsLogic.ts:258-278 | for a unit user and sport, the physical, anthropometric, skill, psychological and interest indices all lie in [0,1] |
| SportsLogic.RawScoreBounds | services/sportsLogic.ts:290-296 | the six weights sum to 1, so sub-indices in [0,1] give a raw score in [0,1] |
| SportsLogic.EnvFit | services/sportsLogic.ts:281-286 | the bonus is one of 0.2, 0.5, 0.8, 0.9, 1.0, decided by the first rule that matches: 1.0 exactly for coastal water sports or a mountain user and a "Running" sport; 0.8 exactly for an urban user and an indoor sport otherwise; then 0.9 or 0.2 for an outdoor sport with or without a playground; 0.5 exactly when no rule matches |
| SportsLogic.MountainRuleNeverFires | services/sportsLogic.ts:283 | with the built-in catalog no sport name contains "Running", so a mountain user never gets the 1.0 bonus from that rule |
| SportsLogic.PushIfOrder | services/sportsLogic.ts:302-307 | a conditional push of a later check keeps the gaps in check order |
| SportsLogic.PushIfMembers | services/sportsLogic.ts:302-307 | a conditional push adds the gap exactly when its condition holds |
| SportsLogic.Gaps | services/sportsLogic.ts:302-307 | at most five improvement areas are collected |
| SportsLogic.GapsMembers | services/sportsLogic.ts:302-307 | an area is listed exactly when the user is more than 0.2 below the sport's ideal for it |
| SportsLogic.GapsInCheckOrder | services/sportsLogic.ts:302-307 | the areas appear in the order strength, endurance, flexibility, tactical, coordination |
| SportsLogic.TopGaps | services/sportsLogic.ts:314 | at most three areas are kept, all taken from the collected ones |
| SportsLogic.TopGapsSpec | services/sportsLogic.ts:302-314 | every kept area is a real deficit and in check order; with at most three deficits all are kept; a strength deficit always comes first |
| SportsLogic.GenerateReason | services/sportsLogic.ts:322-330 | each of the six reasons is given exactly when its two thresholds hold and those of every earlier rule do not (strength, reflexes, endurance, tactics, team, height); "balanced fit" exactly when no rule holds |
| SportsLogic.ScoreSport | services/sportsLogic.ts:251-316 | the imperative scoring of one sport yields the specified recommendation |
| SportsLogic.AllResults | services/sportsLogic.ts:251-316 | one result per catalog sport, in catalog order |
| SportsLogic.AllResultsBounded | services/sportsLogic.ts:290-299 | for unit vectors every suitability score lies in [0,100] |
| SportsLogic.RankedSpec | services/sportsLogic.ts:319 | the result has min(10, catalog size) entries, sorted by score non-increasing, and no left-out sport scores higher than a kept one |
| SportsLogic.RankedFromCatalog | services/sportsLogic.ts:319 | every returned recommendation is the result of some catalog sport |
| SportsLogic.RankingKeepsCatalogOrder | services/sportsLogic.ts:319 | sports with equal scores keep their catalog order after the sort |
| SportsLogic.GetRecommendations | services/sportsLogic.ts:235-320 | the loop over the catalog returns exactly the ranked top ten for the profile and the score map |
| SportsLogic.SportsDbUnit | services/sportsLogic.ts:25-206 | the catalog has 12 sports and every ideal attribute lies in [0,1] |
| SportsLogic.SportNamesMatch | services/sportsLogic.ts:25-206 | the catalog's names are, in order, the twelve listed sport names |
| SportsLogic.NoUpperR | services/sportsLogic.ts:25-206 | no catalog sport name contains a capital R |
| SportsLogic.Abs | services/sportsLogic.ts:258 | the absolute value is non-negative and equal to x or −x |
| RecommendationEngine.Normalize | services/recommendationEngine.ts:30 | a missing or zero value gives 0; otherwise the percentage of max is capped at 100, exact below max |
| RecommendationEngine.PercentBounds | services/recommendationEngine.ts:30 | v/max·100 is a percentage: exact, at least 100 from max up, at most 100 below it, non-negative for v ≥ 0 |
| RecommendationEngine.OrElse | services/recommendationEngine.ts:37 | `a || b` keeps a present non-zero value, else falls back |
| RecommendationEngine.MakeIndices | services/recommendationEngine.ts:30-44 | each of the ten indices is 0 for a missing or zero raw value, 100 at or above the maximum (30 for skills, 20 for personality traits) and otherwise the value as a percentage of the maximum; practical falls back to "Technical"; stability and emotional intelligence each add two such percentages |
| RecommendationEngine.PracticalFallback | services/recommendationEngine.ts:37 | the practical index uses "Practical" when present and non-zero, otherwise "Technical" |
| RecommendationEngine.IndicesBounds | services/recommendationEngine.ts:33-44 | for non-negative raw maps single indices lie in [0,100] and the two summed ones in [0,200] |
| RecommendationEngine.CognitiveBounds | services/recommendationEngine.ts:133 | the rounded mean of the four skill indices lies in [0,100] |
| RecommendationEngine.PcbBoost | services/recommendationEngine.ts:59 | the PCB boost is 40 exactly when "Biology" is present and non-zero, otherwise 20 |
| RecommendationEngine.PcbBoostSpec | services/recommendationEngine.ts:51-77 | the ranked streams contain the PCB stream with its boosted score |
| RecommendationEngine.DesignBoost | services/recommendationEngine.ts:107 | the design boost is 20 exactly when the creative total exceeds 50, otherwise 0 |
| RecommendationEngine.DesignBoostSpec | services/recommendationEngine.ts:80-111 | the ranked careers contain the Design domain with its boosted score |
| RecommendationEngine.PersonalityType | services/recommendationEngine.ts:134 | Commander above 70 leadership, else Empath above 70 emotional, else Innovator above 70 innovation, and Analyst exactly when none exceeds 70 |
| RecommendationEngine.RankStreams | services/recommendationEngine.ts:51-77 | the streams are a permutation of the five candidates, sorted by score non-increasing |
| RecommendationEngine.RankCareers | services/recommendationEngine.ts:80-111 | the careers are a permutation of the five candidates, sorted by score non-increasing |
| RecommendationEngine.StreamKept | services/recommendationEngine.ts:51-77 | ranking drops no stream |
| RecommendationEngine.CareerKept | services/recommendationEngine.ts:80-111 | ranking drops no career domain |
| RecommendationEngine.TopThree | services/recommendationEngine.ts:116-142 | three candidates are kept, sorted non-increasing, and no dropped candidate scores above a kept one |
| RecommendationEngine.GenerateHolisticProfile | services/recommendationEngine.ts:25-27 | no profile exactly when the skill and personality maps are both empty |
| RecommendationEngine.NullOnlyWithoutSkillAndPsych | services/recommendationEngine.ts:25-27 | whether a profile is returned does not depend on the sports and creative maps and is decided by the skill and personality keys |
| RecommendationEngine.ListLengths | services/recommendationEngine.ts:131-144 | the profile has 5 streams, 5 careers, 3 sport families and 3 creative fields |
| ScholarshipEngine.DaysLeft | services/scholarshipEngine.ts:68-69 | the days left are the ceiling of the remaining time in days |
| ScholarshipEngine.Classify | services/scholarshipEngine.ts:71-94 | Closed exactly when the days left are negative; Opening soon exactly when not closed and the start is ahead; Closing soon with 0–7 days left and Open with more; never "announced" |
| ScholarshipEngine.ProjectDates | services/scholarshipEngine.ts:32-58 | the renewal flag is set exactly for a recurring, passed deadline; the dates are the projected ones; a recurring deadline ends up not before now |
| ScholarshipEngine.Analyze | services/scholarshipEngine.ts:27-114 | the status and label follow the classification of the projected dates; the status is never "announced" and never Closed for a recurring scholarship |
| ScholarshipEngine.NoRenewalKeepsDates | services/scholarshipEngine.ts:32-37 | without a renewal the stored dates are used unchanged |
| ScholarshipEngine.NextYearNotPast | services/scholarshipEngine.ts:54-57 | a deadline still past in this year is not past after the move to next year |
| ScholarshipEngine.EffectiveEndNotPast | services/scholarshipEngine.ts:37-57 | after a renewal the effective deadline is not before now |
| ScholarshipEngine.SecondMoveNotPast | services/scholarshipEngine.ts:54-57 | after the second move the effective deadline is not before now |
| ScholarshipEngine.RenewalYear | services/scholarshipEngine.ts:43-57 | a renewed deadline lies in this year or the next |
| ScholarshipEngine.RenewalStartYear | services/scholarshipEngine.ts:43-57 | a start date is kept exactly when there was one, and it moves to the deadline's year |
| ScholarshipEngine.RenewalKeepsDate | services/scholarshipEngine.ts:43-57 | a renewed deadline keeps its time of day and, unless it is 29 February, its month and day |
| ScholarshipEngine.MovesKeepMonthDay | services/scholarshipEngine.ts:43-57 | one or two year changes keep the month and day of a date other than 29 February |
| ScholarshipEngine.EveryYearHas | services/scholarshipEngine.ts:43-44 | every date other than 29 February exists in every year |
| ScholarshipEngine.RecurringNeverClosed | services/scholarshipEngine.ts:37-71 | a recurring scholarship is never classified Closed |
| ScholarshipEngine.ClosingSoonWindow | services/scholarshipEngine.ts:68-94 | with no start: exactly 7 days left is Closing soon, 1 ms more is Open, one day past is Closed, and any deadline within the next 7 days is Closing soon |
| Calendar.WithYear | services/scholarshipEngine.ts:43-44 | `setFullYear` keeps the time of day, lands in the requested year, and keeps the month and day whenever they exist in that year |
| Calendar.LaterYearIsLater | services/scholarshipEngine.ts:54 | an instant in a later year is later |
| Calendar.YearOfMonotone | services/scholarshipEngine.ts:29 | a later instant is never in an earlier year |
| Calendar.FromToCivil | services/scholarshipEngine.ts:33 | every day number round-trips through its civil date |
| Calendar.ToFromCivil | services/scholarshipEngine.ts:33 | every valid civil date round-trips through its day number |
| Calendar.CeilDiv | services/scholarshipEngine.ts:69 | `Math.ceil(a / b)` is the r with (r−1)·b < a ≤ r·b |
| QuestionEngine.RecentIds | services/questionEngine.ts:14-15 | the recent set is exactly the ids in the history |
| QuestionEngine.Pool | services/questionEngine.ts:18-21 | the pool is exactly the bank's questions of the category (all with 'All'), a sub-multiset of the bank |
| QuestionEngine.WithHistory | services/questionEngine.ts:27-28 | the unattempted/attempted lists hold exactly the pool questions whose id is outside/inside the recent set |
| QuestionEngine.PartitionPool | services/questionEngine.ts:27-28 | the two lists together are a rearrangement of the pool |
| QuestionEngine.Shuffle | services/questionEngine.ts:69-74 | the in-place Fisher–Yates swap loop permutes the array |
| QuestionEngine.ShuffledCopy | services/questionEngine.ts:31-32 | the shuffled list has the same elements and length |
| QuestionEngine.FillSelection | services/questionEngine.ts:35-42 | min(count, total) questions: a prefix of the unattempted ones, or all of them followed by a prefix of the attempted ones |
| QuestionEngine.GenerateSession | services/questionEngine.ts:12-43 | exactly min(count, pool) questions from the pool and category; a question is unattempted exactly when it sits in the first min(count, unattempted) places; all unattempted questions are used when count allows |
| QuestionEngine.SessionOrder | services/questionEngine.ts:35-42 | unattempted questions come before attempted ones |
| QuestionEngine.SessionDistinct | services/questionEngine.ts:27-42 | with distinct ids in the pool no question is returned twice |
| QuestionEngine.GenerateMixedSession | services/questionEngine.ts:48-54 | the Cognitive block, then the Academic block, then the Sports block, each of min(5, pool) questions, at most 15 in all; every question comes from the bank and each block is a sub-multiset of its category's pool |
| QuestionEngine.CategorySession | services/questionEngine.ts:49-51 | one block has min(5, pool) questions, all of the category, taken from the bank without repeating any pool entry |
| QuestionEngine.SaveAttempt | services/questionEngine.ts:56-66 | the attempt is appended last; the oldest entry is dropped beyond 200, so a history of at most 200 stays so |
| LearningEngine.Engine.constructor | services/learningEngine.ts:16-22 | loading the module reads the stored consent |
| LearningEngine.Engine.Initialize | services/learningEngine.ts:20-22 | consent is whatever is stored |
| LearningEngine.Engine.SetConsent | services/learningEngine.ts:24-29 | consent takes the new value, but only granting is stored; revoking leaves the stored item |
| LearningEngine.Engine.LogInteraction | services/learningEngine.ts:144-164 | without consent nothing is logged; otherwise the log is the last 50 of the old log plus the entry |
| LearningEngine.Engine.IngestProfessionalData | services/learningEngine.ts:95-141 | no vector exactly without the professional's consent; otherwise the professional vector, and a submit entry is logged when logging consent is on |
| LearningEngine.LastEntries | services/learningEngine.ts:161 | `slice(-n)` keeps the newest min(n, length) entries in order |
| LearningEngine.WindowKeepsNewest | services/learningEngine.ts:159-161 | the new entry is last, the window never exceeds 50, and nothing is dropped below 50 |
| LearningEngine.Likert | services/learningEngine.ts:99 | `(v−1)/4` maps 1..5 into [0,1] |
| LearningEngine.LikertScale | services/learningEngine.ts:99 | 1, 3 and 5 map to 0, 0.5 and 1, and the map is monotone |
| LearningEngine.Technical | services/learningEngine.ts:107 | 0.9 exactly when the sector contains "Tech" or "Engineer", else 0.5 |
| LearningEngine.Economic | services/learningEngine.ts:110 | 0.2 exactly for Low, 0.5 exactly for Mid, 0.8 exactly otherwise |
| LearningEngine.ProfessionalVector | services/learningEngine.ts:101-127 | the id is `prof_` and the record id; the raw vector is the six dimensions in order |
| LearningEngine.ProfessionalVectorSpec | services/learningEngine.ts:99-120 | for 1..5 ratings all six raw components and the economic score lie in [0,1]; the logical, verbal, numerical, creative and sports components each invert through `(v-1)/4` to their rating, the technical component is the sector's score and the economic score is the band's |
| LearningEngine.FindPoint | services/learningEngine.ts:45 | `find` fails exactly when no point has the subject, and otherwise returns a point with it |
| LearningEngine.FindPointFirst | services/learningEngine.ts:45 | the point found is the first one with the subject |
| LearningEngine.FindPointAt | services/learningEngine.ts:45 | `find` returns the first point with the subject, at whatever position it stands |
| LearningEngine.GetScore | services/learningEngine.ts:43-48 | 0 without radar data or without the subject; otherwise the result times `fullMark || 100` of the first point with the subject is that point's score |
| LearningEngine.Any | services/learningEngine.ts:51 | `some` holds exactly when an element satisfies the test |
| LearningEngine.StudentVector | services/learningEngine.ts:41-89 | logical, verbal, numerical and technical are the radar scores of those subjects; creative is 0.8 exactly with a creative strength, else 0.2; sports 0.9 exactly with sport recommendations, else 0.1; economic 0.5; raw vector in order |
| LearningEngine.AuditRecommendations | services/learningEngine.ts:171-183 | flagged exactly when a strength mentions Logic, Math or Tech and the lowercased summary mentions neither "tech" nor "engineer"; a reason exactly when flagged |
| LearningEngine.EngineeringSummaryNotFlagged | services/learningEngine.ts:174 | a summary mentioning "Engineering" is never flagged |
| ScholarshipFinder.Filtered | components/ScholarshipFinder.tsx:48-94 | a scholarship is listed exactly when it is in the catalog and passes all seven filters |
| ScholarshipFinder.FilteredInOrder | components/ScholarshipFinder.tsx:48-94 | filtering a concatenation filters each part, so catalog order is kept |
| ScholarshipFinder.NoFiltersShowAll | components/ScholarshipFinder.tsx:48-94 | with no query, no selections and income "all" the whole catalog is listed |
| ScholarshipFinder.SharesAnySpec | components/ScholarshipFinder.tsx:57-63 | `some(g => selected.includes(g))` holds exactly when the lists share an element |
| ScholarshipFinder.GroupFilterSpec | components/ScholarshipFinder.tsx:56-59 | the group check passes exactly with no selection, an "All" group, or a shared group |
| ScholarshipFinder.FieldFilterSpec | components/ScholarshipFinder.tsx:68-75 | a level or provider filter excludes only a defined, non-empty, unselected value |
| ScholarshipFinder.ArtFilterSpec | components/ScholarshipFinder.tsx:78-83 | with art fields selected a non-Arts scholarship is excluded, and an Arts one passes exactly when its art field is selected |
| ScholarshipFinder.IncomeFilterSpec | components/ScholarshipFinder.tsx:86-90 | no or zero limit always passes; otherwise "low" passes only a limit of exactly 2.5, "mid" a limit of at least 8 and any other range one of at least 100 |
| ScholarshipFinder.Sorted | components/ScholarshipFinder.tsx:97-109 | the sorted list is a permutation of the filtered one, and unchanged without recommendations |
| ScholarshipFinder.SortedSpec | components/ScholarshipFinder.tsx:97-109 | recommended scholarships come before all others, and each group keeps the filtered order |
| ListState.RemoveAll | components/ScholarshipFinder.tsx:114 | `filter(i => i !== x)` drops every x and keeps every other member |
| ListState.Toggle | components/ScholarshipFinder.tsx:112-118 | membership of the item flips, other members are kept, and an absent item is appended |
| ListState.RemoveAllAppend | components/TopColleges.tsx:47-53 | removing an item just appended restores the list |
| ListState.ToggleTwice | components/ScholarshipFinder.tsx:112-118 | toggling twice restores the members, and the exact list when the item was absent |
| ListState.SaveRecentSearchSpec | components/ScholarshipFinder.tsx:120-125 | a blank query changes nothing; otherwise the query is first and only once, at most 5 entries, the rest from the old list |
| ListState.RecentSearches.constructor | components/ScholarshipFinder.tsx:40-45 | the stored list is loaded when there is one |
| ListState.RecentSearches.SetQuery | components/ScholarshipFinder.tsx:132-134 | a recent search click sets the query only |
| ListState.RecentSearches.Save | components/ScholarshipFinder.tsx:120-125 | a blank query changes nothing; otherwise the list is the move-to-front update and it is stored |
| ListState.RecentSearches.Submit | components/ScholarshipFinder.tsx:127-130 | a key other than Enter or a blank query changes nothing; otherwise the query is saved |
| CreativeAssessment.CreativeQuiz.constructor | components/CreativeAssessment.tsx:22-27 | the selection screen with no questions and the stored map |
| CreativeAssessment.CreativeQuiz.StartTest | components/CreativeAssessment.tsx:29-40 | min(8, bank) questions drawn from the category's bank, one unanswered (−1) slot each |
| CreativeAssessment.CreativeQuiz.HandleAnswer | components/CreativeAssessment.tsx:42-46 | only the answered slot changes, and there stays one answer per question |
| CreativeAssessment.CreativeQuiz.FinishTest | components/CreativeAssessment.tsx:48-61 | called only once no answer is unset, as the disabled "Calculate Score" button (line 152) ensures; the score lies in [0,100]; the stored map gets the category set to it and no other category changes |
| CreativeAssessment.YesCount | components/CreativeAssessment.tsx:52 | the number of "yes" answers is at most the number of answers |
| CreativeAssessment.TotalIsYesCount | components/CreativeAssessment.tsx:52 | the reduce adds the per-question points once per "yes" |
| CreativeAssessment.CreativeScoreSpec | components/CreativeAssessment.tsx:51-53 | the score is the rounded share of "yes" answers out of 100: within [0,100], 0 with no "yes", 100 when all are "yes" |
| CreativeAssessment.RoundShare | components/CreativeAssessment.tsx:53 | rounding k shares of 100/n stays within [0,100] and hits both ends |
| CreativeAssessment.YesShare | components/CreativeAssessment.tsx:51-52 | k of n shares of 100/n lie in [0,100] and n of them are exactly 100 |
| CreativeAssessment.Recommendations | components/CreativeAssessment.tsx:63-69 | nothing before a category is chosen; otherwise the first min(3, matching) Arts scholarships whose art field is the category, "Creative" or unset, as a prefix of the matching ones in catalog order |
| SportsAssessment.AnsweredSpec | components/SportsAssessment.tsx:44-54 | an impact adds to its category (missing counts 0); a Team or Solo answer sets Team to 10 or 0 rather than adding; other keys are unchanged |
| SportsAssessment.ClassifyHeight | components/SportsAssessment.tsx:189 | Tall exactly above 175 cm, Short exactly below 160 cm, Medium otherwise |
| SportsAssessment.SportsQuiz.constructor | components/SportsAssessment.tsx:31-35 | the form step with min(15, bank) questions drawn from the bank |
| SportsAssessment.SportsQuiz.ChangeStats | components/SportsAssessment.tsx:37-39 | the profile is replaced and nothing else changes |
| SportsAssessment.SportsQuiz.SubmitPhysical | components/SportsAssessment.tsx:41 | the quiz step is shown |
| SportsAssessment.SportsQuiz.HandleQuizAnswerAsWritten | components/SportsAssessment.tsx:43-72 | the map takes the answer and the index steps; after the last question the ranking and the stored map use the map without the last answer |
| SportsAssessment.SportsQuiz.HandleQuizAnswer | components/SportsAssessment.tsx:43-72 | the corrected handler: after the last question the ranking and the stored map use the map with every answer |
| SportsAssessment.SportsQuiz.FinishAssessment | components/SportsAssessment.tsx:63-72 | the recommendations are the ranked catalog for the profile and the map; the map and profile are stored |
| SportsAssessment.SportsQuiz.SaveResults | components/SportsAssessment.tsx:67-71 | the map and the profile are stored and the results step is shown |
| SportsAssessment.SportsQuiz.Rank | components/SportsAssessment.tsx:64-65 | the recommendations are the scorer's ranking |
| SportsAssessment.TeamAnswerLost | components/SportsAssessment.tsx:52-64 | a one-question quiz answered "Team": the stored map has no team interest as written and full team interest when corrected |
| PsychometricAssessment.ProfileSummarySpec | components/PsychometricAssessment.tsx:48-62 | the well-balanced sentence for an empty map; otherwise the sentence of the first trait in map order that no other trait outscores, every trait before it scoring strictly less |
| PsychometricAssessment.ChartData | components/PsychometricAssessment.tsx:64-70 | one point per trait, in map order, each with the trait's value and full mark 20 |
| ScoreMaps.TopEntries | components/PsychometricAssessment.tsx:123-126 | the dominant traits (k = 3): min(k, map size) entries forming a sub-multiset of the map, non-increasing by value, none left out scoring higher |
| ScoreMaps.TopEntryFirstMax | components/PsychometricAssessment.tsx:50-51 | the top entry is the first entry of the map with the largest value |
| SportsAssessment.DominantAttributes | components/SportsAssessment.tsx:194 | the result card shows min(3, map size) keys, position by position the keys of the three top entries of the map (highest values, ties in map order) |
| PsychometricAssessment.PsychQuiz.constructor | components/PsychometricAssessment.tsx:16-20 | min(20, bank) questions drawn from the bank |
| PsychometricAssessment.PsychQuiz.HandleStart | components/PsychometricAssessment.tsx:22 | the quiz starts and nothing else changes |
| PsychometricAssessment.PsychQuiz.HandleAnswerAsWritten | components/PsychometricAssessment.tsx:24-46 | the answer is stored under the question id and its impact added; after the last question the stored map leaves out that answer |
| PsychometricAssessment.PsychQuiz.HandleAnswer | components/PsychometricAssessment.tsx:24-46 | the corrected handler: the stored map includes the last answer |
| PsychometricAssessment.LastAnswerLost | components/PsychometricAssessment.tsx:38-44 | a one-question quiz scoring 4 for Openness: the stored map lacks Openness as written and has 4 when corrected |
| AssessmentModule.AssessmentSession.constructor | components/AssessmentModule.tsx:23-32 | the mixed session (at most 15 questions of Cognitive, Academic, Sports) followed by every Demographic question in bank order; every question comes from the bank |
| AssessmentModule.AssessmentSession.HandleStart | components/AssessmentModule.tsx:37 | the first question is shown |
| AssessmentModule.AssessmentSession.HandleAnswer | components/AssessmentModule.tsx:39-52 | the answer overwrites the question's entry; an impact is added again on every click; the attempt with the impact value (0 without one) is recorded |
| AssessmentModule.AssessmentSession.HandleNext | components/AssessmentModule.tsx:54-63 | called only once the current question has an answer, as the disabled Next button (line 200) ensures; the index advances while below the last question; on the last one the scores and answers are stored |
| AssessmentModule.AssessmentSession.HandlePrev | components/AssessmentModule.tsx:81-85 | the index goes back by one but never below 0 |
| TopColleges.FilteredColleges | components/TopColleges.tsx:69-81 | a college is listed exactly when it is in the catalog, of the chosen domain, and matches a non-empty query in name, location or domain |
| TopColleges.FilteredInOrder | components/TopColleges.tsx:69-81 | filtering a concatenation filters each part, so catalog order is kept |
| TopColleges.NoFilterListsAll | components/TopColleges.tsx:69-81 | with "All" and no query the whole catalog is listed |
| TopColleges.EveryDomainListed | components/TopColleges.tsx:19-26 | every domain has a section |
| TopColleges.GroupByDomain | components/TopColleges.tsx:84-91 | every domain has a group, holding exactly the filtered colleges of that domain in filtered order |
| TopColleges.GroupsPartition | components/TopColleges.tsx:84-91 | the group sizes add up to the filtered count, so each college lands in exactly one group |
| SchoolFinder.FilteredSchools | components/SchoolFinder.tsx:39-51 | a school is listed exactly when it is in the catalog, carries the chosen tag, and matches a non-empty query in name, type or description |
| SchoolFinder.FilteredInOrder | components/SchoolFinder.tsx:39-51 | filtering a concatenation filters each part, so catalog order is kept |
| SchoolFinder.NoFilterListsAll | components/SchoolFinder.tsx:39-51 | with "All" and no query the whole catalog is listed |
| SchoolFinder.PrimaryBadge | components/SchoolFinder.tsx:53-59 | the badge is the highest-priority tag of Central Govt, State Govt, Sports, Private, and the plain badge exactly when none is present |
| ScoreMaps.Get | components/SportsAssessment.tsx:47 | a lookup misses exactly when no entry has the key, and otherwise returns an entry's value |
| ScoreMaps.GetOr0 | components/SportsAssessment.tsx:47 | `m[k] || 0`: 0 for a missing key, the value otherwise |
| ScoreMaps.Put | components/SportsAssessment.tsx:53 | the key gets the value and every other key keeps its lookup |
| ScoreMaps.PutKeys | components/SportsAssessment.tsx:53 | an existing key keeps its place and a new key goes last, as object keys do |
| ScoreMaps.AddImpact | components/SportsAssessment.tsx:45-48 | the category grows by the impact, with a missing category counting 0, and other keys are unchanged |
| ScoreMaps.SumNonNegative | services/recommendationEngine.ts:47-48 | a total of non-negative scores is non-negative |
| StableSort.SortDesc | services/sportsLogic.ts:319 | the sort is a permutation that is non-increasing by the key |
| StableSort.SortDescStable | services/sportsLogic.ts:319 | the elements with any given key keep their relative order |
| StableSort.SortHeadIsFirstMax | services/sportsLogic.ts:319 | the first element of the sort is the first element of the input with the largest key |
| StableSort.TopK | services/recommendationEngine.ts:141-142 | `sort` then `slice(0, k)`: min(k, n) elements from the input, non-increasing, none left out with a higher key |
| Common.Round | services/sportsLogic.ts:299 | `Math.round` returns the integer within half of x, halves rounding up |
| Common.Clamp01 | services/sportsLogic.ts:220 | `Math.max(0, Math.min(1, x))` lies in [0,1] and is x inside it |
| Common.ToLower | components/TopColleges.tsx:76 | lowercasing keeps the length and lowercases each ASCII capital |
| Common.FilterMembers | components/TopColleges.tsx:70 | `filter` keeps exactly the elements that pass |
| Common.FilterAppend | components/ScholarshipFinder.tsx:49 | `filter` distributes over concatenation, so it keeps order |

## Left out

- Every call to the language model (report, college fit, scholarship matching, chat) is an asynchronous network request. The list of AI recommendations that the scholarship sort reads is a parameter.
- Rendering, navigation, modals, the language toggle, `isSubmitting`, the loading flags and the colour classes are not modelled.
- `localStorage` is modelled as fields and parameters. JSON serialisation and a missing or corrupt item are not modelled.
- `Math.random` is modelled as a parameter: the Fisher–Yates index choice and the permutation a random-comparator sort produces. No claim is made about uniformity.
- `crypto.randomUUID`, `Date.now` and ISO timestamps are not modelled. Session and vector ids are parameters, and the log entries carry no timestamp or metadata.
- `console` output is not modelled.
- Parsing the stored `YYYY-MM-DD` strings is not modelled: records carry instants.
- An invalid date (NaN) is not modelled.
- The difference between a UTC-parsed deadline and the local-time `setFullYear` and `getFullYear` is not modelled: all times are UTC.
- `toLocaleDateString` is not modelled: labels are abstract (`OpensOn(date)`, `ClosingIn(days)`).
- `ScholarshipEngine.verifyStatus` is an asynchronous stub and is not part of this model.
- The `setTimeout` delays before the next question are not modelled.
- Floating-point arithmetic is modelled on exact reals. `toFixed(1)` is any rounding within 0.05 of the value.
- `SportsLogic.CalculateBmi`: requires a non-zero height, because IEEE division by zero gives Infinity and the model does not represent it. The same requirement carries over to `SportsLogic.MakeUserVector`, `SportsLogic.GetRecommendations`, `SportsAssessment.SportsQuiz.HandleQuizAnswerAsWritten`, `SportsAssessment.SportsQuiz.HandleQuizAnswer`, `SportsAssessment.SportsQuiz.FinishAssessment` and `SportsAssessment.SportsQuiz.Rank`, although the physical form's `parseInt` can produce a height of 0.
- The form's age, dominant hand and coaching fields are not modelled: the scorer never reads them.
- Case folding: `toLowerCase` is modelled for ASCII letters only.
- `RecommendationEngine.GenerateHolisticProfile`: `sportsAptitude` and `creativeIndex` (rounded totals) are computed but no property beyond their definition is stated.
- `getCareerPaths`, the creative screen's static career list per category, is display text and is not modelled.
- The static catalogs (questions, colleges, schools, scholarships) are data. They are parameters here, apart from the sports catalog.

## Findings

| source | as written | input that shows it | evidently intended | confidence | as-written member | corrected member |
|---|---|---|---|---|---|---|
| components/PsychometricAssessment.tsx:38-44 | `finishTest` stores the `scores` of the render in which the last answer was clicked; that answer's impact is queued and not yet applied | a one-question quiz whose answer scores 4 for Openness stores a map without Openness | the stored personality map includes every answer of the session | high; not executed | PsychometricAssessment.PsychQuiz.HandleAnswerAsWritten, PsychometricAssessment.LastAnswerLost | PsychometricAssessment.PsychQuiz.HandleAnswer |
| components/SportsAssessment.tsx:56-68 | `finishAssessment` ranks and stores the `scores` of the render in which the last answer was clicked, without that answer | a one-question quiz answered "Team" ranks and stores a map with no team interest | the ranking and the stored map include the last answer | high; not executed | SportsAssessment.SportsQuiz.HandleQuizAnswerAsWritten, SportsAssessment.TeamAnswerLost | SportsAssessment.SportsQuiz.HandleQuizAnswer |
