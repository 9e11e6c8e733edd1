/** The catalogue page: the browsing state (search text, brand, sort order and
    how many phones are shown), the query it sends to the `phones` table, and
    the slice of the answer that is on screen. */
module CatalogPage {
  import opened Js

  /** Phones revealed per page and per "Load More". */
  const PageSize: nat := 12

  datatype SortOption = Newest | PriceLow | PriceHigh | ByRating

  /** `.order(column, { ascending })` */
  datatype Order = Order(column: string, ascending: bool)

  /** `.ilike(column, pattern)` */
  datatype Filter = ILike(column: string, pattern: string)

  /** `supabase.from(table).select("*")` with its filters, in the order they
      were added, and its ordering. */
  datatype Query = Query(table: string, filters: seq<Filter>, order: Order)

  /** The ordering each sort option asks for. */
  function SortOrder(option: SortOption): (o: Order)
    ensures option == PriceLow <==> o == Order("current_price", true)
    ensures option == PriceHigh <==> o == Order("current_price", false)
    ensures option == ByRating <==> o == Order("rating", false)
    ensures option == Newest <==> o == Order("created_at", false)
  {
    match option
    case PriceLow => Order("current_price", true)
    case PriceHigh => Order("current_price", false)
    case ByRating => Order("rating", false)
    case Newest => Order("created_at", false)
  }

  /** `phones?.slice(0, displayCount) || []`: nothing before the data arrives. */
  function Visible<T>(phones: Option<seq<T>>, displayCount: nat): (r: seq<T>)
    ensures phones.None? ==> r == []
    ensures phones.Some? ==>
      && |r| == (if displayCount < |phones.value| then displayCount else |phones.value|)
      && forall i :: 0 <= i < |r| ==> r[i] == phones.value[i]
  {
    if phones.None? then []
    else if displayCount < |phones.value| then phones.value[..displayCount]
    else phones.value
  }

  /** `phones && phones.length > displayCount` */
  predicate LoadMoreShown<T>(phones: Option<seq<T>>, displayCount: nat) {
    phones.Some? && |phones.value| > displayCount
  }

  /** While "Load More" is shown, pressing it keeps every visible phone in its
      place and reveals at least one more; once it is hidden, every fetched
      phone is visible. */
  lemma LoadMoreReveals<T>(phones: Option<seq<T>>, displayCount: nat)
    ensures LoadMoreShown(phones, displayCount) ==>
      && |Visible(phones, displayCount + PageSize)| > |Visible(phones, displayCount)|
      && Visible(phones, displayCount) <= Visible(phones, displayCount + PageSize)
    ensures phones.Some? && !LoadMoreShown(phones, displayCount) ==> Visible(phones, displayCount) == phones.value
  {
  }

  /** The heading above the grid. */
  function Heading(selectedBrand: Option<string>): (h: string)
    ensures TruthyText(selectedBrand) ==> h == selectedBrand.value + " Phones"
    ensures !TruthyText(selectedBrand) ==> h == "All Phones"
  {
    TextOr(selectedBrand, "All") + " Phones"
  }

  /** The `Index` page's state. */
  class Catalog {
    var searchQuery: string
    var selectedBrand: Option<string>
    var sortOption: SortOption
    var displayCount: nat

    /** The number of phones shown is always a whole number of pages. */
    ghost predicate Valid()
      reads this
    {
      displayCount > 0 && displayCount % PageSize == 0
    }

    constructor ()
      ensures Valid()
      ensures searchQuery == "" && selectedBrand == None && sortOption == Newest && displayCount == PageSize
    {
      searchQuery := "";
      selectedBrand := None;
      sortOption := Newest;
      displayCount := PageSize;
    }

    /** `onBrandSelect`: sets the brand (`None` for "All Brands") and goes back
        to the first page. */
    method SelectBrand(brand: Option<string>)
      requires Valid()
      modifies this
      ensures Valid()
      ensures selectedBrand == brand && displayCount == PageSize
      ensures searchQuery == old(searchQuery) && sortOption == old(sortOption)
    {
      selectedBrand := brand;
      displayCount := PageSize;
    }

    /** `setSortOption`: the number of phones shown is kept. */
    method SetSort(option: SortOption)
      requires Valid()
      modifies this
      ensures Valid()
      ensures sortOption == option
      ensures searchQuery == old(searchQuery) && selectedBrand == old(selectedBrand)
      ensures displayCount == old(displayCount)
    {
      sortOption := option;
    }

    /** `setSearchQuery`: the number of phones shown is kept. */
    method SetSearch(text: string)
      requires Valid()
      modifies this
      ensures Valid()
      ensures searchQuery == text
      ensures selectedBrand == old(selectedBrand) && sortOption == old(sortOption)
      ensures displayCount == old(displayCount)
    {
      searchQuery := text;
    }

    /** "Load More": one more page. */
    method LoadMore()
      requires Valid()
      modifies this
      ensures Valid()
      ensures displayCount == old(displayCount) + PageSize
      ensures searchQuery == old(searchQuery) && selectedBrand == old(selectedBrand)
      ensures sortOption == old(sortOption)
    {
      displayCount := displayCount + PageSize;
    }

    /** The query function: a brand filter only for a non-empty brand, a name
        filter only for non-empty search text, brand before name, then the
        ordering of the sort option. */
    method BuildQuery() returns (query: Query)
      ensures query.table == "phones"
      ensures query.order == SortOrder(sortOption)
      ensures |query.filters| == (if TruthyText(selectedBrand) then 1 else 0) + (if searchQuery != "" then 1 else 0)
      ensures TruthyText(selectedBrand) ==> query.filters[0] == ILike("brand", "%" + selectedBrand.value + "%")
      ensures searchQuery != "" ==> query.filters[|query.filters| - 1] == ILike("name", "%" + searchQuery + "%")
    {
      query := Query("phones", [], Order("", false));
      if TruthyText(selectedBrand) {
        query := query.(filters := query.filters + [ILike("brand", "%" + selectedBrand.value + "%")]);
      }
      if searchQuery != "" {
        query := query.(filters := query.filters + [ILike("name", "%" + searchQuery + "%")]);
      }
      if sortOption == PriceLow {
        query := query.(order := Order("current_price", true));
      } else if sortOption == PriceHigh {
        query := query.(order := Order("current_price", false));
      } else if sortOption == ByRating {
        query := query.(order := Order("rating", false));
      } else {
        query := query.(order := Order("created_at", false));
      }
    }
  }
}
