/** The food list page: the available items, the food-type and location
    option lists, the search/type/location filter the page's effect applies,
    and the reset of the three filter cells. */
module FoodList {

  import opened Wrappers
  import opened Common
  import opened Seqs
  import opened Text

  function IsAvailable(f: FoodItem): bool { f.status == Available }

  /** `foodItems?.filter(item => item.status === 'available') || []`. */
  function AvailableFoodItems(foodItems: Option<seq<FoodItem>>): (r: seq<FoodItem>)
    ensures foodItems.None? ==> r == []
    ensures foodItems.Some? ==> IsSubseq(r, foodItems.value)
    ensures foodItems.Some? ==> forall x :: x in r <==> x in foodItems.value && x.status == Available
  {
    match foodItems
    case None => []
    case Some(xs) =>
      FilterIsSubseq(xs, IsAvailable);
      Filter(xs, IsAvailable)
  }

  /** The location key of an address: its last comma-separated part, trimmed.
      That part is `AfterLastComma(address)`; the key is a slice of it with
      only white space around it and none at either of its own ends. */
  function LocationKey(address: string): (r: string)
    ensures ',' !in r
    ensures |r| <= |address|
    ensures r == [] || (!IsJsSpace(r[0]) && !IsJsSpace(r[|r| - 1]))
    ensures exists i :: SpacePadded(AfterLastComma(address), r, i)
    ensures ',' !in address ==> r == Trim(address)
  {
    var part := AfterLastComma(address);
    TrimAddsNothing(part, ',');
    Trim(part)
  }

  /** An address with commas: the key is its last part, trimmed. */
  lemma LocationKeyExample()
    ensures LocationKey("12 Oak St, West End") == "West End"
  {
    assert "12 Oak St, West End" == "12 Oak St" + [','] + " West End";
    AfterFinalComma("12 Oak St", " West End");
    TrimWestEnd();
  }

  lemma TrimWestEnd()
    ensures Trim(" West End") == "West End"
  {
    assert " West End" == [' '] + "West End";
    TrimStartOne(' ', "West End");
    TrimEndNone("West End");
  }

  function FoodTypeOf(f: FoodItem): string { f.foodType }

  function LocationOf(f: FoodItem): string { LocationKey(f.pickupLocation) }

  /** The food-type options: every type of every item (not only the
      available ones), each once. */
  function FoodTypes(foodItems: Option<seq<FoodItem>>): (r: seq<string>)
    ensures Distinct(r)
    ensures forall t :: t in r <==> foodItems.Some? && exists i :: 0 <= i < |foodItems.value| && foodItems.value[i].foodType == t
  {
    if foodItems.None? then [] else DistinctImage(foodItems.value, FoodTypeOf)
  }

  /** The location options: the location key of every item, each once. */
  function Locations(foodItems: Option<seq<FoodItem>>): (r: seq<string>)
    ensures Distinct(r)
    ensures forall l :: l in r <==>
              foodItems.Some? && exists i :: 0 <= i < |foodItems.value| && LocationKey(foodItems.value[i].pickupLocation) == l
  {
    if foodItems.None? then [] else DistinctImage(foodItems.value, LocationOf)
  }

  /** The search term, lower-cased, occurs in the lower-cased title,
      description or food type. */
  function MatchesSearch(f: FoodItem, term: string): (r: bool)
    ensures r <==> (exists i :: OccursAt(Lower(f.title), Lower(term), i)) ||
                   (exists i :: OccursAt(Lower(f.description), Lower(term), i)) ||
                   (exists i :: OccursAt(Lower(f.foodType), Lower(term), i))
    ensures term == "" ==> r
  {
    ContainsAt(Lower(f.title), Lower(term));
    ContainsAt(Lower(f.description), Lower(term));
    ContainsAt(Lower(f.foodType), Lower(term));
    Contains(Lower(f.title), Lower(term)) || Contains(Lower(f.description), Lower(term)) ||
    Contains(Lower(f.foodType), Lower(term))
  }

  /** What the page shows for the three filter cells: an empty search term
      and the value "all" disable their filters; otherwise the type and the
      location key must equal the selection exactly. */
  predicate Keeps(f: FoodItem, term: string, foodType: string, location: string) {
    (term == "" || MatchesSearch(f, term)) &&
    (foodType == "all" || f.foodType == foodType) &&
    (location == "all" || LocationKey(f.pickupLocation) == location)
  }

  function Keeping(term: string, foodType: string, location: string): FoodItem -> bool {
    (f: FoodItem) => Keeps(f, term, foodType, location)
  }

  /** The filtered list is an order-preserving selection of the available
      items, holding exactly those the three filters keep. */
  lemma KeepingSelects(available: seq<FoodItem>, term: string, foodType: string, location: string)
    ensures IsSubseq(Filter(available, Keeping(term, foodType, location)), available)
    ensures forall f :: f in Filter(available, Keeping(term, foodType, location)) <==>
              f in available && Keeps(f, term, foodType, location)
  {
    FilterIsSubseq(available, Keeping(term, foodType, location));
  }

  /** With no filter active every available item is shown. */
  lemma NoFiltersKeepAll(available: seq<FoodItem>)
    ensures Filter(available, Keeping("", "all", "all")) == available
  {
    FilterAll(available, Keeping("", "all", "all"));
  }

  function Searching(term: string): FoodItem -> bool { (f: FoodItem) => MatchesSearch(f, term) }

  function OfType(foodType: string): FoodItem -> bool { (f: FoodItem) => f.foodType == foodType }

  function AtLocation(location: string): FoodItem -> bool { (f: FoodItem) => LocationKey(f.pickupLocation) == location }

  /** The first one and the first two of the three filters. */
  function SearchStage(term: string): FoodItem -> bool {
    (f: FoodItem) => term == "" || MatchesSearch(f, term)
  }

  function TypeStage(term: string, foodType: string): FoodItem -> bool {
    (f: FoodItem) => (term == "" || MatchesSearch(f, term)) && (foodType == "all" || f.foodType == foodType)
  }

  class FoodListPage {
    var searchTerm: string
    var foodType: string
    var location: string
    var filteredFoodItems: seq<FoodItem>

    constructor ()
      ensures searchTerm == "" && foodType == "all" && location == "all" && filteredFoodItems == []
    {
      searchTerm, foodType, location, filteredFoodItems := "", "all", "all", [];
    }

    /** Without an active filter the page keeps every item. */
    function HasActiveFilters(): (r: bool)
      reads this
      ensures !r ==> forall f :: Keeps(f, searchTerm, foodType, location)
    {
      searchTerm != "" || foodType != "all" || location != "all"
    }

    /** `resetFilters`: clears the search and selects "all" twice. */
    method ResetFilters()
      modifies this`searchTerm, this`foodType, this`location
      ensures searchTerm == "" && foodType == "all" && location == "all"
      ensures !HasActiveFilters()
    {
      searchTerm, foodType, location := "", "all", "all";
    }

    /** The filter effect: nothing when there are no available items;
        otherwise the search, type and location filters in turn. */
    method ApplyFilters(available: seq<FoodItem>)
      modifies this`filteredFoodItems
      ensures available == [] ==> filteredFoodItems == old(filteredFoodItems)
      ensures available != [] ==> filteredFoodItems == Filter(available, Keeping(searchTerm, foodType, location))
    {
      if |available| == 0 {
        return;
      }
      var filtered := available;
      if searchTerm != "" {
        filtered := Filter(filtered, Searching(searchTerm));
        FilterSame(available, Searching(searchTerm), SearchStage(searchTerm));
      } else {
        FilterAll(available, SearchStage(searchTerm));
      }
      if foodType != "all" {
        filtered := Filter(filtered, OfType(foodType));
        FilterFilter(available, SearchStage(searchTerm), OfType(foodType), TypeStage(searchTerm, foodType));
      } else {
        FilterSame(available, SearchStage(searchTerm), TypeStage(searchTerm, foodType));
      }
      if location != "all" {
        filtered := Filter(filtered, AtLocation(location));
        FilterFilter(available, TypeStage(searchTerm, foodType), AtLocation(location), Keeping(searchTerm, foodType, location));
      } else {
        FilterSame(available, TypeStage(searchTerm, foodType), Keeping(searchTerm, foodType, location));
      }
      filteredFoodItems := filtered;
    }
  }
}
