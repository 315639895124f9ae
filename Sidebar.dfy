/**
 * The two pieces of logic in apps/web/components/Sidebar.tsx: the list of
 * centers narrowed by the search box, and the merge of a submitted filter
 * form into the current filters.
 */
module Sidebar {
  import opened Wrappers
  import opened Strings
  import opened Types

  // ---- filteredCenters ----

  /** The text searched for: the lower-cased search value, or "" when there is none. */
  function Needle(search: Option<string>): string {
    // An absent search reads as "", and lower-casing "" leaves it "".
    if search.Some? then Lower(search.value) else ""
  }

  predicate Shown(c: FoodCenter, search: Option<string>) {
    Contains(Lower(c.name), Needle(search))
  }

  /** The centers whose lower-cased name contains the needle, in the order given. */
  function VisibleCenters(centers: seq<FoodCenter>, search: Option<string>): seq<FoodCenter>
    decreases |centers|
  {
    if centers == [] then []
    else (if Shown(centers[0], search) then [centers[0]] else []) + VisibleCenters(centers[1..], search)
  }

  /** `a` is `b` with some elements left out, the rest in their order. */
  predicate IsSubsequence(a: seq<FoodCenter>, b: seq<FoodCenter>)
    decreases |b|
  {
    if a == [] then true
    else if b == [] then false
    else (a[0] == b[0] && IsSubsequence(a[1..], b[1..])) || IsSubsequence(a, b[1..])
  }

  /** A center is listed exactly when its lower-cased name contains the lower-cased search text. */
  lemma {:induction false} VisibleMembers(centers: seq<FoodCenter>, search: Option<string>, c: FoodCenter)
    ensures c in VisibleCenters(centers, search) <==> c in centers && Contains(Lower(c.name), Needle(search))
    decreases |centers|
  {
    if centers != [] {
      VisibleMembers(centers[1..], search, c);
      assert centers == [centers[0]] + centers[1..];
    }
  }

  /** The list keeps the centers' order. */
  lemma {:induction false} VisibleIsSubsequence(centers: seq<FoodCenter>, search: Option<string>)
    ensures IsSubsequence(VisibleCenters(centers, search), centers)
    decreases |centers|
  {
    if centers != [] {
      VisibleIsSubsequence(centers[1..], search);
      var rest := VisibleCenters(centers[1..], search);
      if Shown(centers[0], search) {
        assert ([centers[0]] + rest)[1..] == rest;
      } else {
        assert [] + rest == rest;
      }
    }
  }

  /** An absent or empty search lists every center. */
  lemma {:induction false} EmptySearchKeepsAll(centers: seq<FoodCenter>, search: Option<string>)
    requires search.None? || search.value == ""
    ensures VisibleCenters(centers, search) == centers
    decreases |centers|
  {
    if centers != [] {
      ContainsEmpty(Lower(centers[0].name));
      EmptySearchKeepsAll(centers[1..], search);
      assert centers == [centers[0]] + centers[1..];
    }
  }

  /** The search ignores the case it is typed in. */
  lemma SearchIgnoresCase(centers: seq<FoodCenter>, s: string)
    ensures VisibleCenters(centers, Some(Upper(s))) == VisibleCenters(centers, Some(Lower(s)))
    ensures VisibleCenters(centers, Some(Upper(s))) == VisibleCenters(centers, Some(s))
  {
    LowerForgetsCase(s);
    assert Needle(Some(Upper(s))) == Needle(Some(s)) == Needle(Some(Lower(s)));
  }

  // ---- onSubmit ----

  /** The sidebar's filters prop. */
  datatype SidebarFilters = SidebarFilters(centerType: string, dietaryRestrictions: seq<string>, city: string)

  /** The submitted filter form: every field may be missing. */
  datatype FilterForm = FilterForm(search: Option<string>, centerType: Option<string>, dietaryRestrictions: Option<seq<string>>)

  /** The current filters with the type and dietary list taken from the form, a missing one cleared; the city is kept. */
  function ApplyFilters(filters: SidebarFilters, data: FilterForm): (r: SidebarFilters)
    ensures r.city == filters.city
    ensures r.centerType == (if data.centerType.Some? then data.centerType.value else "")
    ensures r.dietaryRestrictions == (if data.dietaryRestrictions.Some? then data.dietaryRestrictions.value else [])
  {
    filters.(centerType := data.centerType.GetOr(""),
             dietaryRestrictions := data.dietaryRestrictions.GetOr([]))
  }

  /** The form's initial values: an empty search and the current type and dietary list. */
  function DefaultForm(filters: SidebarFilters): FilterForm {
    FilterForm(Some(""), Some(filters.centerType), Some(filters.dietaryRestrictions))
  }

  /** Submitting the untouched form gives back the current filters. */
  lemma SubmitDefaultsIsIdentity(filters: SidebarFilters)
    ensures ApplyFilters(filters, DefaultForm(filters)) == filters
  {
  }

  /** The search text never reaches the filters, and applying the same form twice is applying it once. */
  lemma ApplyFiltersSettles(filters: SidebarFilters, data: FilterForm, search: Option<string>)
    ensures ApplyFilters(filters, data.(search := search)) == ApplyFilters(filters, data)
    ensures ApplyFilters(ApplyFilters(filters, data), data) == ApplyFilters(filters, data)
  {
  }
}
