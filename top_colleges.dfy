/** The college browser: the domain and text filter over the catalog and
    the grouping of the filtered colleges by domain. Expanding and
    collapsing a domain section is `ListState.Toggle` on the expanded
    list, which starts as `AllDomains`; the search box and the recent
    searches are a `ListState.RecentSearches`. */
module TopColleges {
  import opened Common
  import opened Records

  /** The six domain sections in display order, all expanded at first. */
  const AllDomains: seq<Domain> := [Engineering, Medical, Arts, SportsDomain, Music, Vocational]

  lemma EveryDomainListed(d: Domain)
    ensures d in AllDomains
  {
    match d
    case Engineering => assert AllDomains[0] == d;
    case Medical => assert AllDomains[1] == d;
    case Arts => assert AllDomains[2] == d;
    case SportsDomain => assert AllDomains[3] == d;
    case Music => assert AllDomains[4] == d;
    case Vocational => assert AllDomains[5] == d;
  }

  /** A college passes when the domain filter is "All" (`None`) or its
      domain, and a non-empty query occurs in its lower-cased name,
      location or domain. */
  predicate Passes(activeFilter: Option<Domain>, query: string, c: College)
  {
    (activeFilter.None? || c.domain == activeFilter.value)
    && (query == ""
        || Contains(ToLower(c.name), ToLower(query))
        || Contains(ToLower(c.location), ToLower(query))
        || Contains(ToLower(DomainText(c.domain)), ToLower(query)))
  }

  /** `filteredData`. */
  function FilteredColleges(db: seq<College>, activeFilter: Option<Domain>, query: string): (r: seq<College>)
    ensures forall c | c in r :: c in db && Passes(activeFilter, query, c)
    ensures forall c | c in db && Passes(activeFilter, query, c) :: c in r
    ensures activeFilter.Some? ==> forall c | c in r :: c.domain == activeFilter.value
  {
    var passes := (c: College) => Passes(activeFilter, query, c);
    FilterMembers(db, passes);
    Filter(db, passes)
  }

  /** Filtering keeps catalog order: it distributes over concatenation. */
  lemma FilteredInOrder(a: seq<College>, b: seq<College>, activeFilter: Option<Domain>, query: string)
    ensures FilteredColleges(a + b, activeFilter, query) == FilteredColleges(a, activeFilter, query) + FilteredColleges(b, activeFilter, query)
  {
    FilterAppend(a, b, (c: College) => Passes(activeFilter, query, c));
  }

  /** With "All" and no query the whole catalog is listed in order. */
  lemma NoFilterListsAll(db: seq<College>)
    ensures FilteredColleges(db, None, "") == db
  {
    FilterAll(db, (c: College) => Passes(None, "", c));
  }

  function InDomain(d: Domain): College -> bool
  {
    (c: College) => c.domain == d
  }

  /** `groupedData`: a group per domain, each holding the filtered
      colleges of that domain in filtered order. */
  method GroupByDomain(filtered: seq<College>) returns (groups: map<Domain, seq<College>>)
    ensures forall d: Domain :: d in groups && groups[d] == Filter(filtered, InDomain(d))
  {
    groups := map d | d in AllDomains :: [];
    forall d: Domain ensures d in groups {
      EveryDomainListed(d);
    }
    for i := 0 to |filtered|
      invariant forall d: Domain :: d in groups && groups[d] == Filter(filtered[..i], InDomain(d))
    {
      var c := filtered[i];
      forall d: Domain
        ensures Filter(filtered[..i + 1], InDomain(d)) == Filter(filtered[..i], InDomain(d)) + (if c.domain == d then [c] else [])
      {
        FilterStep(filtered, i, InDomain(d));
      }
      groups := groups[c.domain := groups[c.domain] + [c]];
    }
    assert filtered[..|filtered|] == filtered;
  }

  /** The sizes of the six groups. */
  function GroupSizes(s: seq<College>): nat
  {
    |Filter(s, InDomain(Engineering))| + |Filter(s, InDomain(Medical))| + |Filter(s, InDomain(Arts))|
    + |Filter(s, InDomain(SportsDomain))| + |Filter(s, InDomain(Music))| + |Filter(s, InDomain(Vocational))|
  }

  /** Every filtered college lands in exactly one group: the group sizes
      add up to the length of the filtered list. */
  lemma {:induction false} GroupsPartition(s: seq<College>)
    ensures GroupSizes(s) == |s|
  {
    if s != [] {
      GroupsPartition(s[1..]);
    }
  }
}
