/** `GET /workers/search`: `Array.prototype.filter` over the worker collection
    with an optional exact category and an optional case-insensitive location
    fragment. */
module WorkerSearch {
  import opened Records
  import opened Text

  /** `s.filter(keep)`: the elements that pass, in their order. */
  function Filter<T>(s: seq<T>, keep: T -> bool): (r: seq<T>)
    ensures |r| <= |s|
  {
    if s == [] then []
    else (if keep(s[0]) then [s[0]] else []) + Filter(s[1..], keep)
  }

  lemma {:induction false} FilterMembers<T>(s: seq<T>, keep: T -> bool, x: T)
    ensures x in Filter(s, keep) <==> x in s && keep(x)
  {
    if s != [] {
      FilterMembers(s[1..], keep, x);
      assert x in s <==> x == s[0] || x in s[1..];
    }
  }

  lemma {:induction false} FilterConcat<T>(a: seq<T>, b: seq<T>, keep: T -> bool)
    ensures Filter(a + b, keep) == Filter(a, keep) + Filter(b, keep)
  {
    if a != [] {
      assert (a + b)[1..] == a[1..] + b;
      FilterConcat(a[1..], b, keep);
    } else {
      assert a + b == b;
    }
  }

  lemma {:induction false} FilterAll<T>(s: seq<T>, keep: T -> bool)
    requires forall x :: x in s ==> keep(x)
    ensures Filter(s, keep) == s
  {
    if s != [] {
      FilterAll(s[1..], keep);
      assert s == [s[0]] + s[1..];
    }
  }

  /** Every element of the result is an input element that passes. */
  lemma FilterSound<T>(s: seq<T>, keep: T -> bool)
    ensures forall x :: x in Filter(s, keep) ==> x in s && keep(x)
  {
    forall x | x in Filter(s, keep) ensures x in s && keep(x) {
      FilterMembers(s, keep, x);
    }
  }

  /** Filtering by a conjunction is filtering by each conjunct in turn. */
  lemma {:induction false} FilterBoth<T>(s: seq<T>, f: T -> bool, g: T -> bool, both: T -> bool)
    requires forall x :: both(x) == (f(x) && g(x))
    ensures Filter(s, both) == Filter(Filter(s, f), g)
  {
    if s != [] {
      FilterBoth(s[1..], f, g, both);
      var head := if f(s[0]) then [s[0]] else [];
      FilterConcat(head, Filter(s[1..], f), g);
      if head != [] {
        assert head[1..] == [];
      }
    }
  }

  /** Two predicates that agree on every element select the same elements. */
  lemma {:induction false} FilterSame<T>(s: seq<T>, f: T -> bool, g: T -> bool)
    requires forall x :: f(x) == g(x)
    ensures Filter(s, f) == Filter(s, g)
  {
    if s != [] {
      FilterSame(s[1..], f, g);
    }
  }

  /** The filter's predicate. A query parameter that is missing or empty
      lets every worker through; otherwise the category must be equal and
      the lower-cased location must contain the lower-cased fragment. */
  predicate Matches(w: Worker, category: Option<string>, location: Option<string>)
    ensures Matches(w, category, location) <==>
      (!Truthy(category) || w.category == category.value) &&
      (!Truthy(location) || Occurs(Lower(w.location), Lower(location.value)))
  {
    && (!Truthy(category) || w.category == category.value)
    && (!Truthy(location) || Includes(Lower(w.location), Lower(location.value)))
  }

  function Query(category: Option<string>, location: Option<string>): Worker -> bool {
    w => Matches(w, category, location)
  }

  /** The handler's result for the query parameters `category`, `location`. */
  function Search(workers: seq<Worker>, category: Option<string>, location: Option<string>): (r: seq<Worker>)
    ensures |r| <= |workers|
    ensures forall w :: w in r ==> w in workers && Matches(w, category, location)
  {
    FilterSound(workers, Query(category, location));
    Filter(workers, Query(category, location))
  }

  /** A worker is in the result exactly when it is in the collection and
      satisfies both filters. */
  lemma SearchMembers(workers: seq<Worker>, category: Option<string>, location: Option<string>, w: Worker)
    ensures w in Search(workers, category, location) <==> w in workers && Matches(w, category, location)
  {
    FilterMembers(workers, Query(category, location), w);
  }

  /** Searching distributes over concatenation; with SearchSingle this says
      the result keeps the matching workers in collection order. */
  lemma SearchConcat(a: seq<Worker>, b: seq<Worker>, category: Option<string>, location: Option<string>)
    ensures Search(a + b, category, location) == Search(a, category, location) + Search(b, category, location)
  {
    FilterConcat(a, b, Query(category, location));
  }

  lemma SearchSingle(w: Worker, category: Option<string>, location: Option<string>)
    ensures Search([w], category, location) == if Matches(w, category, location) then [w] else []
  {
    assert [w][1..] == [];
  }

  /** With neither filter supplied, the whole collection comes back. */
  lemma SearchWithoutFilters(workers: seq<Worker>, category: Option<string>, location: Option<string>)
    requires !Truthy(category) && !Truthy(location)
    ensures Search(workers, category, location) == workers
  {
    FilterAll(workers, Query(category, location));
  }

  /** When every worker passes, the whole collection comes back. */
  lemma SearchKeepsMatching(workers: seq<Worker>, category: Option<string>, location: Option<string>)
    requires forall w :: w in workers ==> Matches(w, category, location)
    ensures Search(workers, category, location) == workers
  {
    FilterAll(workers, Query(category, location));
  }

  /** Searching by both filters is searching by category, then by location. */
  lemma SearchComposes(workers: seq<Worker>, category: Option<string>, location: Option<string>)
    ensures Search(workers, category, location) == Search(Search(workers, category, None), None, location)
  {
    FilterBoth(workers, Query(category, None), Query(None, location), Query(category, location));
  }

  /** The location query is case-insensitive: two fragments that lower-case
      alike select the same workers. */
  lemma SearchIgnoresQueryCase(workers: seq<Worker>, category: Option<string>, l1: string, l2: string)
    requires Lower(l1) == Lower(l2)
    ensures Search(workers, category, Some(l1)) == Search(workers, category, Some(l2))
  {
    assert |l1| == |Lower(l1)| == |Lower(l2)| == |l2|;
    FilterSame(workers, Query(category, Some(l1)), Query(category, Some(l2)));
  }

  /** A fragment matches anywhere in the location, not only at its start:
      "town" selects both "Downtown" and "Uptown", and "TOWN" does too. */
  lemma SearchTownExample(down: Worker, up: Worker)
    requires down.location == "Downtown" && up.location == "Uptown"
    ensures Search([down, up], None, Some("town")) == [down, up]
    ensures Search([down, up], None, Some("TOWN")) == [down, up]
  {
    SearchTownLower(down, up);
    LowerWord("TOWN", "town");
    LowerWord("town", "town");
    SearchIgnoresQueryCase([down, up], None, "TOWN", "town");
  }

  lemma SearchTownLower(down: Worker, up: Worker)
    requires down.location == "Downtown" && up.location == "Uptown"
    ensures Search([down, up], None, Some("town")) == [down, up]
  {
    TownMatches(down, "downtown", 4);
    TownMatches(up, "uptown", 2);
    SearchKeepsMatching([down, up], None, Some("town"));
  }

  lemma TownMatches(w: Worker, lowered: string, k: nat)
    requires |w.location| == |lowered| && forall i :: 0 <= i < |lowered| ==> LowerChar(w.location[i]) == lowered[i]
    requires k + 4 <= |lowered| && lowered[k..k + 4] == "town"
    ensures Matches(w, None, Some("town"))
  {
    LowerWord(w.location, lowered);
    LowerWord("town", "town");
    assert OccursAt(lowered, "town", k);
  }

  lemma LowerWord(s: string, t: string)
    requires |s| == |t| && forall i :: 0 <= i < |s| ==> LowerChar(s[i]) == t[i]
    ensures Lower(s) == t
  {
  }
}
