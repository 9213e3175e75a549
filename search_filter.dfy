/** The search-filter component of `search-filter.component.ts`: the form value
    as a record, the product filter it emits, and the convenience setters. */
module SearchFilter {
  import opened Common
  import opened Text
  import opened Products

  datatype PriceRange = PriceRange(min: real, max: Option<real>, caption: string)

  /** `priceRanges`. */
  const PriceRanges: seq<PriceRange> := [
    PriceRange(0.0, Some(50.0), "Under $50"),
    PriceRange(50.0, Some(100.0), "$50 - $100"),
    PriceRange(100.0, Some(200.0), "$100 - $200"),
    PriceRange(200.0, Some(500.0), "$200 - $500"),
    PriceRange(500.0, Some(1000.0), "$500 - $1000"),
    PriceRange(1000.0, None, "Over $1000")
  ]

  /** `ratingOptions`. */
  const RatingOptions: seq<real> := [4.5, 4.0, 3.5, 3.0]

  /** The values of `sortOptions`. */
  const SortOptions: seq<string> := ["latest", "price_asc", "price_desc", "rating", "name_asc", "name_desc"]

  /** The ranges tile the price axis: each bounded range ends where the next
      begins, the starts increase, and only the last range is open-ended. */
  lemma PriceRangesAreContiguous()
    ensures forall i :: 0 <= i < |PriceRanges| - 1 ==> PriceRanges[i].max == Some(PriceRanges[i + 1].min)
    ensures forall i :: 0 <= i < |PriceRanges| - 1 ==> PriceRanges[i].min < PriceRanges[i + 1].min
    ensures PriceRanges[|PriceRanges| - 1].max == None
    ensures forall i, j :: 0 <= i < j < |PriceRanges| ==> PriceRanges[i].min != PriceRanges[j].min
  {
  }

  /** The compound sort keys. */
  predicate IsCompoundSortKey(key: string)
  {
    key == "price_asc" || key == "price_desc" || key == "name_asc" || key == "name_desc"
  }

  /** Joins a sort field and an optional order back into one option value. */
  function JoinSortKey(sortBy: string, sortOrder: Option<string>): string
  {
    if sortOrder.Some? then sortBy + "_" + sortOrder.value else sortBy
  }

  /** The sort-key split of `emitFilterChange`: a compound key becomes a field
      and an order, any other key passes through with no order. */
  function SplitSortKey(key: string): (r: (string, Option<string>))
    ensures JoinSortKey(r.0, r.1) == key
    ensures r.1.Some? <==> IsCompoundSortKey(key)
    ensures r.1.Some? ==> (r.0 == "price" || r.0 == "name") && (r.1.value == "asc" || r.1.value == "desc")
  {
    if key == "price_asc" then ("price", Some("asc"))
    else if key == "price_desc" then ("price", Some("desc"))
    else if key == "name_asc" then ("name", Some("asc"))
    else if key == "name_desc" then ("name", Some("desc"))
    else (key, None)
  }

  /** Every sort option joins back to itself after the split, and exactly the
      four price and name options carry an order; `latest` and `rating` are
      sent as they are. */
  lemma SortOptionsSplit()
    ensures forall i :: 0 <= i < |SortOptions| ==>
      JoinSortKey(SplitSortKey(SortOptions[i]).0, SplitSortKey(SortOptions[i]).1) == SortOptions[i]
    ensures forall i :: 0 <= i < |SortOptions| ==>
      (SplitSortKey(SortOptions[i]).1.Some? <==> i in {1, 2, 4, 5})
    ensures SplitSortKey(SortOptions[0]) == ("latest", None) && SplitSortKey(SortOptions[3]) == ("rating", None)
  {
  }

  /** The rating options are distinct minima, best first, so at most one of
      them reads as selected. */
  lemma RatingOptionsDescend()
    ensures forall i, j :: 0 <= i < j < |RatingOptions| ==> RatingOptions[i] > RatingOptions[j]
    ensures forall i :: 0 <= i < |RatingOptions| ==> 0.0 < RatingOptions[i] <= 5.0
  {
  }

  /** The component's form: `search`, `minPrice`, `maxPrice`, `minRating`, `sortBy`. */
  class SearchFilterForm {
    var search: Option<string>
    var minPrice: Option<real>
    var maxPrice: Option<real>
    var minRating: Option<real>
    var sortBy: Option<string>

    constructor()
      ensures search == Some("") && minPrice == None && maxPrice == None && minRating == None
      ensures sortBy == Some("latest")
    {
      search, minPrice, maxPrice, minRating, sortBy := Some(""), None, None, None, Some("latest");
    }

    /** `emitFilterChange`: the filter built from the current form value. */
    method EmitFilterChange() returns (filter: ProductFilter)
      // the search is sent trimmed, and only when something is left after trimming
      ensures filter.search.Some? <==> search.Some? && Trim(search.value) != ""
      ensures filter.search.Some? ==> filter.search.value == Trim(search.value)
      // prices and rating are sent only when truthy, so 0 is dropped
      ensures filter.minPrice == (if TruthyNumber(minPrice) then minPrice else None)
      ensures filter.maxPrice == (if TruthyNumber(maxPrice) then maxPrice else None)
      ensures filter.minRating == (if TruthyNumber(minRating) then minRating else None)
      // a non-empty sort option is sent split; joining the parts gives it back
      ensures filter.sortBy.Some? <==> TruthyText(sortBy)
      ensures filter.sortBy.Some? ==> JoinSortKey(filter.sortBy.value, filter.sortOrder) == sortBy.value
      ensures filter.sortOrder.Some? <==> TruthyText(sortBy) && IsCompoundSortKey(sortBy.value)
      ensures filter.categoryId.None? && filter.brandId.None?
    {
      var sentSearch: Option<string> := None;
      var sentMin: Option<real> := None;
      var sentMax: Option<real> := None;
      var sentRating: Option<real> := None;
      var sentSort: Option<string> := None;
      var sentOrder: Option<string> := None;
      var trimmed := if search.Some? then Trim(search.value) else "";
      if search.Some? && trimmed != "" {
        sentSearch := Some(trimmed);
      }
      if minPrice.Some? && minPrice.value != 0.0 {
        sentMin := minPrice;
      }
      assert sentMin == (if TruthyNumber(minPrice) then minPrice else None);
      if maxPrice.Some? && maxPrice.value != 0.0 {
        sentMax := maxPrice;
      }
      assert sentMax == (if TruthyNumber(maxPrice) then maxPrice else None);
      if minRating.Some? && minRating.value != 0.0 {
        sentRating := minRating;
      }
      assert sentRating == (if TruthyNumber(minRating) then minRating else None);
      if sortBy.Some? && sortBy.value != "" {
        var (field, order) := SplitSortKey(sortBy.value);
        sentSort := Some(field);
        if order.Some? {
          sentOrder := order;
        }
      }
      filter := ProductFilter(sentSearch, sentMin, sentMax, sentRating, sentSort, sentOrder, None, None);
    }

    /** `clearFilters`: back to an empty search, no bounds, no rating, newest first. */
    method ClearFilters()
      modifies this
      ensures search == Some("") && minPrice == None && maxPrice == None && minRating == None
      ensures sortBy == Some("latest")
    {
      search, minPrice, maxPrice, minRating, sortBy := Some(""), None, None, None, Some("latest");
    }

    /** `selectPriceRange`: patch both bounds, nothing else. */
    method SelectPriceRange(min: Option<real>, max: Option<real>)
      modifies this
      ensures minPrice == min && maxPrice == max
      ensures search == old(search) && minRating == old(minRating) && sortBy == old(sortBy)
      ensures IsPriceRangeSelected(min, max)
    {
      minPrice, maxPrice := min, max;
    }

    /** `selectRating`: patch the rating, nothing else. */
    method SelectRating(rating: real)
      modifies this
      ensures minRating == Some(rating)
      ensures search == old(search) && minPrice == old(minPrice) && maxPrice == old(maxPrice) && sortBy == old(sortBy)
      ensures IsRatingSelected(rating)
    {
      minRating := Some(rating);
    }

    /** `isPriceRangeSelected`: both bounds are strictly equal to the form's. */
    predicate IsPriceRangeSelected(min: Option<real>, max: Option<real>)
      reads this
    {
      minPrice == min && maxPrice == max
    }

    /** `isRatingSelected`. */
    predicate IsRatingSelected(rating: real)
      reads this
    {
      minRating == Some(rating)
    }
  }

  /** At most one of the predefined ranges reads as selected at any time. */
  lemma AtMostOneRangeSelected(form: SearchFilterForm, i: nat, j: nat)
    requires i < |PriceRanges| && j < |PriceRanges|
    requires form.IsPriceRangeSelected(Some(PriceRanges[i].min), PriceRanges[i].max)
    requires form.IsPriceRangeSelected(Some(PriceRanges[j].min), PriceRanges[j].max)
    ensures i == j
  {
    PriceRangesAreContiguous();
  }
}
