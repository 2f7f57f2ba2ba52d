/** The scholarship finder screen: the multi-criteria filter over the
    catalog and the "AI recommended first" ordering. Chip selections use
    `ListState.Toggle` and the recent-search list `ListState.SaveRecentSearch`. */
module ScholarshipFinder {
  import opened Common
  import opened Records
  import opened StableSort

  /** The filter panel's state. `incomeRange` is "all", "low", "mid" or
      another range value. */
  datatype Filters = Filters(
    query: string,
    groups: seq<string>,
    goals: seq<string>,
    levels: seq<string>,
    providers: seq<string>,
    artFields: seq<string>,
    incomeRange: string)

  /** An AI match: a scholarship id and the reason shown for it. */
  datatype AiMatch = AiMatch(id: string, reason: string)

  /** The filters a fresh screen starts with. */
  const NoFilters := Filters("", [], [], [], [], [], "all")

  /** Step 1: a non-empty query must occur in the lower-cased name or
      provider. */
  predicate TextOk(query: string, sch: Scholarship)
  {
    !(query != "" && !Contains(ToLower(sch.name), ToLower(query))
                  && !Contains(ToLower(sch.provider), ToLower(query)))
  }

  /** `sch.socialGroup.some(g => selected.includes(g))`, written as the
      source's scan. */
  predicate SharesAny(xs: seq<string>, selected: seq<string>)
  {
    xs != [] && (xs[0] in selected || SharesAny(xs[1..], selected))
  }

  /** Step 2: with groups selected, the record is open to all or lists a
      selected group. */
  predicate GroupOk(groups: seq<string>, sch: Scholarship)
  {
    |groups| > 0 ==> "All" in sch.socialGroup || SharesAny(sch.socialGroup, groups)
  }

  /** Step 3: with goals selected, the record lists a selected goal. */
  predicate GoalOk(goals: seq<string>, sch: Scholarship)
  {
    |goals| > 0 ==> SharesAny(sch.careerGoal, goals)
  }

  /** Steps 4 and 5: an optional field that is set (truthy) must be among
      the selected values. */
  predicate FieldOk(selected: seq<string>, field: Option<string>)
  {
    !(|selected| > 0 && Truthy(field) && field.value !in selected)
  }

  /** Step 6: with art fields selected only Arts records whose art field is
      selected pass. */
  predicate ArtOk(artFields: seq<string>, sch: Scholarship)
  {
    if |artFields| > 0 && sch.category == "Arts" then
      Truthy(sch.artField) && sch.artField.value in artFields
    else !(|artFields| > 0 && sch.category != "Arts")
  }

  /** The cap of an income range: 2.5 for "low", 8 for "mid", 100 otherwise. */
  function IncomeCap(range: string): real
  {
    if range == "low" then 2.5 else if range == "mid" then 8.0 else 100.0
  }

  /** Step 7, in the source's two checks. A zero or missing limit is falsy
      and never excludes. */
  predicate IncomeOk(range: string, limit: Option<real>)
  {
    range != "all" ==>
      !(range == "low" && TruthyNum(limit) && limit.value > 2.5)
      && !(TruthyNum(limit) && IncomeCap(range) > limit.value)
  }

  predicate Matches(f: Filters, sch: Scholarship)
  {
    && TextOk(f.query, sch)
    && GroupOk(f.groups, sch)
    && GoalOk(f.goals, sch)
    && FieldOk(f.levels, sch.level)
    && FieldOk(f.providers, sch.providerType)
    && ArtOk(f.artFields, sch)
    && IncomeOk(f.incomeRange, sch.incomeLimit)
  }

  /** `filteredScholarships`: `scholarshipDatabase.filter(...)`. */
  function Filtered(db: seq<Scholarship>, f: Filters): (r: seq<Scholarship>)
    ensures forall s | s in r :: s in db && Matches(f, s)
    ensures forall s | s in db && Matches(f, s) :: s in r
  {
    var passes := (s: Scholarship) => Matches(f, s);
    FilterMembers(db, passes);
    Filter(db, passes)
  }

  /** The filtered list keeps the catalog order: filtering two halves of
      the catalog gives the two filtered halves, one after the other. */
  lemma FilteredInOrder(a: seq<Scholarship>, b: seq<Scholarship>, f: Filters)
    ensures Filtered(a + b, f) == Filtered(a, f) + Filtered(b, f)
  {
    FilterAppend(a, b, (s: Scholarship) => Matches(f, s));
  }

  /** The shared-element scan is "some element is selected". */
  lemma {:induction false} SharesAnySpec(xs: seq<string>, selected: seq<string>)
    ensures SharesAny(xs, selected) <==> exists g | g in xs :: g in selected
  {
    if xs != [] {
      SharesAnySpec(xs[1..], selected);
      assert xs == [xs[0]] + xs[1..];
    }
  }

  /** With no query, no selections and income "all", every record is
      shown, in catalog order. */
  lemma NoFiltersShowAll(db: seq<Scholarship>)
    ensures Filtered(db, NoFilters) == db
  {
    forall s | s in db ensures Matches(NoFilters, s) {
      assert IncomeOk("all", s.incomeLimit);
    }
    FilterAll(db, (s: Scholarship) => Matches(NoFilters, s));
  }

  /** The social-group check passes exactly when nothing is selected, the
      record is open to all, or it shares a group with the selection. */
  lemma GroupFilterSpec(groups: seq<string>, sch: Scholarship)
    ensures GroupOk(groups, sch) <==>
              groups == [] || "All" in sch.socialGroup || exists g | g in sch.socialGroup :: g in groups
  {
    SharesAnySpec(sch.socialGroup, groups);
  }

  /** Level and provider exclude a record only when its field is set and
      not selected. */
  lemma FieldFilterSpec(selected: seq<string>, field: Option<string>)
    ensures !FieldOk(selected, field) <==>
              selected != [] && field.Some? && field.value != "" && field.value !in selected
    ensures field.None? ==> FieldOk(selected, field)
  {
  }

  /** With art fields selected every non-Arts record is excluded, and an
      Arts record passes exactly when its art field is selected. */
  lemma ArtFilterSpec(artFields: seq<string>, sch: Scholarship)
    requires artFields != []
    ensures sch.category != "Arts" ==> !ArtOk(artFields, sch)
    ensures sch.category == "Arts" ==>
              (ArtOk(artFields, sch) <==> sch.artField.Some? && sch.artField.value in artFields
                                          && sch.artField.value != "")
  {
  }

  /** The income checks amount to: no limit (or a zero limit) always
      passes; otherwise "low" passes only a limit of exactly 2.5, "mid" a
      limit of at least 8, and any other range a limit of at least 100. */
  lemma IncomeFilterSpec(range: string, limit: Option<real>)
    requires range != "all"
    ensures limit.None? || limit.value == 0.0 ==> IncomeOk(range, limit)
    ensures limit.Some? && limit.value != 0.0 ==>
              (IncomeOk(range, limit) <==>
                 if range == "low" then limit.value == 2.5
                 else if range == "mid" then limit.value >= 8.0
                 else limit.value >= 100.0)
  {
  }

  /** Whether the AI recommended a record. */
  predicate IsRecommended(recs: seq<AiMatch>, sch: Scholarship)
  {
    exists r | r in recs :: r.id == sch.id
  }

  /** The comparator's view: 1 for a recommended record, 0 otherwise. */
  function RecKey(recs: seq<AiMatch>): Scholarship -> real
  {
    (s: Scholarship) => if IsRecommended(recs, s) then 1.0 else 0.0
  }

  /** `sortedScholarships`: a copy of the filtered list, stably sorted with
      recommended records first when there are recommendations. */
  function Sorted(filtered: seq<Scholarship>, recs: seq<AiMatch>): (r: seq<Scholarship>)
    ensures multiset(r) == multiset(filtered)
    ensures recs == [] ==> r == filtered
  {
    if |recs| > 0 then SortDesc(filtered, RecKey(recs)) else filtered
  }

  /** Recommended records come before all others, and within each of the
      two groups the filtered order is kept. */
  lemma SortedSpec(filtered: seq<Scholarship>, recs: seq<AiMatch>)
    ensures var r := Sorted(filtered, recs);
            forall i, j | 0 <= i < j < |r| && IsRecommended(recs, r[j]) :: IsRecommended(recs, r[i])
    ensures WithKey(Sorted(filtered, recs), RecKey(recs), 1.0) == WithKey(filtered, RecKey(recs), 1.0)
    ensures WithKey(Sorted(filtered, recs), RecKey(recs), 0.0) == WithKey(filtered, RecKey(recs), 0.0)
  {
    if |recs| > 0 {
      var r := Sorted(filtered, recs);
      var key := RecKey(recs);
      forall i, j | 0 <= i < j < |r| && IsRecommended(recs, r[j]) ensures IsRecommended(recs, r[i]) {
        assert key(r[i]) >= key(r[j]);
      }
      SortDescStable(filtered, key, 1.0);
      SortDescStable(filtered, key, 0.0);
    }
  }
}
