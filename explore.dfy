/** The explore page (pages/Explore.tsx): the destinations catalog narrowed
    by a category filter string. */
module Explore {
  import opened Types
  import opened Collections
  import Catalog

  /** The filter buttons, in display order: `"all"` first, then one per category. */
  const Categories: seq<string> := ["all", "culture", "nature", "city", "food"]

  /** Every option after `"all"` names a member of the category union, and
      every member of the union has an option. */
  lemma CategoriesNameTheUnion()
    ensures Categories[0] == "all"
    ensures forall i :: 1 <= i < |Categories| ==> exists c: Category :: CategoryName(c) == Categories[i]
    ensures forall c: Category :: CategoryName(c) in Categories[1..]
  {
    assert CategoryName(Culture) == Categories[1];
    assert CategoryName(Nature) == Categories[2];
    assert CategoryName(City) == Categories[3];
    assert CategoryName(Food) == Categories[4];
  }

  /** The test the filter applies to each destination. */
  predicate InCategory(filter: string, d: Destination)
  {
    CategoryName(d.category) == filter
  }

  /** `filteredDestinations`: the whole list for `"all"`, otherwise the
      destinations whose category tag equals the filter. */
  function FilteredDestinations(destinations: seq<Destination>, filter: string): (r: seq<Destination>)
    ensures filter == "all" ==> r == destinations
    ensures filter != "all" ==> forall i :: 0 <= i < |r| ==> r[i] in destinations && CategoryName(r[i].category) == filter
    ensures filter != "all" ==> forall i :: 0 <= i < |destinations| && CategoryName(destinations[i].category) == filter ==>
      destinations[i] in r
  {
    if filter == "all" then destinations else Filter(destinations, d => InCategory(filter, d))
  }

  /** Under any category filter (any filter other than "all", which shows the
      catalog unchanged) the page shows destinations in catalog order, and
      each matching destination exactly as often as the catalog lists it. */
  lemma FilteredDestinationsInOrder(destinations: seq<Destination>, filter: string, d: Destination)
    requires filter != "all"
    ensures IsSubsequence(FilteredDestinations(destinations, filter), destinations)
    ensures multiset(FilteredDestinations(destinations, filter))[d] ==
      if InCategory(filter, d) then multiset(destinations)[d] else 0
  {
    FilterIsSubsequence(destinations, d => InCategory(filter, d));
    FilterCount(destinations, d => InCategory(filter, d), d);
  }

  /** A filter string that names no category leaves nothing to show. */
  lemma UnknownFilterShowsNothing(destinations: seq<Destination>, filter: string)
    requires filter != "all" && filter !in {"culture", "nature", "food", "city"}
    ensures FilteredDestinations(destinations, filter) == []
  {
    FilterEmptyIff(destinations, d => InCategory(filter, d));
  }

  /** "No destinations found" is shown exactly when no destination carries the
      selected category (never for `"all"` over a non-empty catalog). */
  lemma NoDestinationsNoticeIff(destinations: seq<Destination>, filter: string)
    ensures FilteredDestinations(destinations, filter) == [] <==>
      if filter == "all" then destinations == []
      else forall i :: 0 <= i < |destinations| ==> !InCategory(filter, destinations[i])
  {
    if filter != "all" {
      FilterEmptyIff(destinations, d => InCategory(filter, d));
    }
  }

  /** Every category button shows at least one shipped destination. */
  lemma EveryCategoryInhabited(c: Category)
    ensures FilteredDestinations(Catalog.Destinations, CategoryName(c)) != []
  {
    match c
    case Culture => ShownAt(c, 0);
    case City => ShownAt(c, 1);
    case Nature => ShownAt(c, 2);
    case Food => ShownAt(c, 3);
  }

  /** A category that the catalog entry at `i` belongs to shows something. */
  lemma ShownAt(c: Category, i: nat)
    requires i < |Catalog.Destinations| && Catalog.Destinations[i].category == c
    ensures FilteredDestinations(Catalog.Destinations, CategoryName(c)) != []
  {
    assert Catalog.Destinations[i] in FilteredDestinations(Catalog.Destinations, CategoryName(c));
  }
}
