/** The school finder: the tag and text filter over the school catalog and
    the primary badge shown on each school's card. The search box and its
    recent searches are a `ListState.RecentSearches`. */
module SchoolFinder {
  import opened Common
  import opened Records

  /** A school passes when the tag filter is "All" (`None`) or one of its
      tags, and a non-empty query occurs in its lower-cased name, type or
      description. */
  predicate Passes(activeFilter: Option<string>, query: string, s: School)
  {
    (activeFilter.None? || activeFilter.value in s.tags)
    && (query == ""
        || Contains(ToLower(s.name), ToLower(query))
        || Contains(ToLower(s.schoolType), ToLower(query))
        || Contains(ToLower(s.description), ToLower(query)))
  }

  /** `filteredData`. */
  function FilteredSchools(db: seq<School>, activeFilter: Option<string>, query: string): (r: seq<School>)
    ensures forall s | s in r :: s in db && Passes(activeFilter, query, s)
    ensures forall s | s in db && Passes(activeFilter, query, s) :: s in r
    ensures activeFilter.Some? ==> forall s | s in r :: activeFilter.value in s.tags
  {
    var passes := (s: School) => Passes(activeFilter, query, s);
    FilterMembers(db, passes);
    Filter(db, passes)
  }

  /** Filtering keeps catalog order: it distributes over concatenation. */
  lemma FilteredInOrder(a: seq<School>, b: seq<School>, activeFilter: Option<string>, query: string)
    ensures FilteredSchools(a + b, activeFilter, query) == FilteredSchools(a, activeFilter, query) + FilteredSchools(b, activeFilter, query)
  {
    FilterAppend(a, b, (s: School) => Passes(activeFilter, query, s));
  }

  /** With "All" and no query the whole catalog is listed in order. */
  lemma NoFilterListsAll(db: seq<School>)
    ensures FilteredSchools(db, None, "") == db
  {
    FilterAll(db, (s: School) => Passes(None, "", s));
  }

  /** The card badges, in priority order. */
  datatype Badge = CentralGovt | StateGovt | SportsSchool | PrivateSchool | PlainSchool

  /** A badge's place in the priority order, 0 first. */
  function Priority(b: Badge): nat
  {
    match b
    case CentralGovt => 0
    case StateGovt => 1
    case SportsSchool => 2
    case PrivateSchool => 3
    case PlainSchool => 4
  }

  function BadgeLabel(b: Badge): string
  {
    match b
    case CentralGovt => "Central Govt"
    case StateGovt => "State Govt"
    case SportsSchool => "Sports"
    case PrivateSchool => "Private"
    case PlainSchool => "School"
  }

  /** `getPrimaryTag`: the first of Central Govt, State Govt, Sports and
      Private that the school is tagged with, else the plain badge. */
  function PrimaryBadge(tags: seq<string>): (r: Badge)
    ensures r != PlainSchool ==> BadgeLabel(r) in tags
    ensures r == PlainSchool <==> forall b | b != PlainSchool :: BadgeLabel(b) !in tags
    ensures forall b | BadgeLabel(b) in tags :: Priority(r) <= Priority(b)
  {
    if "Central Govt" in tags then CentralGovt
    else if "State Govt" in tags then StateGovt
    else if "Sports" in tags then SportsSchool
    else if "Private" in tags then PrivateSchool
    else PlainSchool
  }
}
