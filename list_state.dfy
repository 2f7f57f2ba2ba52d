/** List updates that several screens share: toggling an entry of a
    selection list (the scholarship filter chips, the expanded college
    domains) and the search box with its five-entry recent-search list
    (scholarships, colleges, schools), each written identically in those
    components. The stored copy of the list is a field. */
module ListState {
  import opened Common

  /** `xs.filter(i => i !== x)`. */
  function RemoveAll<T(==,!new)>(xs: seq<T>, x: T): (r: seq<T>)
    ensures x !in r
    ensures forall y :: y != x ==> (y in r <==> y in xs)
    ensures |r| <= |xs|
    ensures x !in xs ==> r == xs
  {
    if xs == [] then []
    else (if xs[0] == x then [] else [xs[0]]) + RemoveAll(xs[1..], x)
  }

  /** `current.includes(item) ? current.filter(i => i !== item) : [...current, item]`. */
  function Toggle<T(==,!new)>(xs: seq<T>, x: T): (r: seq<T>)
    ensures x in r <==> x !in xs
    ensures forall y :: y != x ==> (y in r <==> y in xs)
    ensures x !in xs ==> r == xs + [x]
  {
    if x in xs then RemoveAll(xs, x) else xs + [x]
  }

  lemma {:induction false} RemoveAllAppend<T(!new)>(xs: seq<T>, x: T)
    requires x !in xs
    ensures RemoveAll(xs + [x], x) == xs
  {
    if xs == [] {
      assert [x][1..] == [];
    } else {
      RemoveAllAppend(xs[1..], x);
      assert (xs + [x])[1..] == xs[1..] + [x];
      assert xs == [xs[0]] + xs[1..];
    }
  }

  /** Toggling the same entry twice gives back the same selection; when the
      entry was not selected, exactly the same list. */
  lemma ToggleTwice<T(!new)>(xs: seq<T>, x: T)
    ensures forall y :: y in Toggle(Toggle(xs, x), x) <==> y in xs
    ensures x !in xs ==> Toggle(Toggle(xs, x), x) == xs
  {
    if x !in xs {
      RemoveAllAppend(xs, x);
    }
  }

  /** `[query, ...recent.filter(s => s !== query)].slice(0, 5)`, unless the
      query is blank, in which case nothing changes. */
  function SaveRecentSearch(recent: seq<string>, query: string): (r: seq<string>)
  {
    if IsBlank(query) then recent
    else
      var moved := [query] + RemoveAll(recent, query);
      moved[..Min(5, |moved|)]
  }

  /** A blank query leaves the list alone; any other query ends up first,
      exactly once, the list never exceeds five entries, and every other
      entry was already in the list. */
  lemma SaveRecentSearchSpec(recent: seq<string>, query: string)
    ensures IsBlank(query) ==> SaveRecentSearch(recent, query) == recent
    ensures !IsBlank(query) ==>
      var r := SaveRecentSearch(recent, query);
      && 1 <= |r| <= 5
      && r[0] == query
      && query !in r[1..]
      && (forall s :: s in r[1..] ==> s in recent)
      && (|recent| < 5 && query !in recent ==> |r| == |recent| + 1)
  {
    if !IsBlank(query) {
      var rest := RemoveAll(recent, query);
      var moved := [query] + rest;
      var r := moved[..Min(5, |moved|)];
      assert r[1..] == rest[..Min(5, |moved|) - 1];
      forall s | s in r[1..] ensures s != query && s in recent {
        assert s in rest;
      }
    }
  }

  /** A finder's search box with its five-entry recent-search list and
      the stored copy of that list. */
  class RecentSearches {
    var query: string
    var recent: seq<string>
    var saved: Option<seq<string>>

    /** The mount effect loads the stored list when there is one. */
    constructor(saved: Option<seq<string>>)
      ensures query == "" && recent == (if saved.Some? then saved.value else [])
      ensures this.saved == saved
    {
      query := "";
      recent := if saved.Some? then saved.value else [];
      this.saved := saved;
    }

    /** Typing in the box, or clicking a recent search, sets the query. */
    method SetQuery(q: string)
      modifies this
      ensures query == q && recent == old(recent) && saved == old(saved)
    {
      query := q;
    }

    /** `saveRecentSearch`: a blank query changes nothing; any other moves
        to the front of the list, and the list is stored. */
    method Save(q: string)
      modifies this
      ensures IsBlank(q) ==> recent == old(recent) && saved == old(saved)
      ensures !IsBlank(q) ==> recent == SaveRecentSearch(old(recent), q) && saved == Some(recent)
      ensures query == old(query)
    {
      if IsBlank(q) {
        return;
      }
      var updated := SaveRecentSearch(recent, q);
      recent := updated;
      saved := Some(updated);
    }

    /** `handleSearchSubmit`: a key other than Enter is ignored; Enter or
        the search button saves the current query. */
    method Submit(key: Option<string>)
      modifies this
      ensures (key.Some? && key.value != "Enter") || IsBlank(query) ==>
                recent == old(recent) && saved == old(saved)
      ensures (key.None? || key.value == "Enter") && !IsBlank(query) ==>
                recent == SaveRecentSearch(old(recent), query) && saved == Some(recent)
      ensures query == old(query)
    {
      if key.Some? && key.value != "Enter" {
        return;
      }
      Save(query);
    }
  }
}
