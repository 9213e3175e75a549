/** The view state of `product-list-component.ts`: the signal fields, the three
    computed views (title, empty state, current page) and the handlers that
    reset the page and reload. */
module ProductList {
  import opened Common
  import opened Products

  const LoadErrorMessage := "Failed to load products. Please try again."

  /** `categories.find(c => c.id === id)`. */
  function FindCategory(categories: seq<Category>, id: int): (r: Option<Category>)
    ensures r.Some? ==> r.value in categories && r.value.id == id
    ensures r.None? ==> forall c :: c in categories ==> c.id != id
    ensures r.Some? ==>
      exists k :: 0 <= k < |categories| && categories[k] == r.value && forall j :: 0 <= j < k ==> categories[j].id != id
  {
    if categories == [] then None
    else if categories[0].id == id then Some(categories[0])
    else FindCategory(categories[1..], id)
  }

  /** The computed `pageTitle`: a selected category first, then a selected
      brand, then a search, else all products. */
  function PageTitle(categories: seq<Category>, selectedCategoryId: Option<int>,
                     selectedBrandId: Option<int>, filter: ProductFilter): (r: string)
    ensures TruthyId(selectedCategoryId) && (FindCategory(categories, selectedCategoryId.value).None?
      || FindCategory(categories, selectedCategoryId.value).value.name == "")
      ==> r == "Category Products"
    ensures TruthyId(selectedCategoryId) && FindCategory(categories, selectedCategoryId.value).Some?
      && FindCategory(categories, selectedCategoryId.value).value.name != ""
      ==> r == FindCategory(categories, selectedCategoryId.value).value.name + " Products"
    ensures !TruthyId(selectedCategoryId) && TruthyId(selectedBrandId) ==> r == "Brand Products"
    ensures !TruthyId(selectedCategoryId) && !TruthyId(selectedBrandId) && TruthyText(filter.search)
      ==> r == "Search Results for \"" + filter.search.value + "\""
    ensures !TruthyId(selectedCategoryId) && !TruthyId(selectedBrandId) && !TruthyText(filter.search)
      ==> r == "All Products"
  {
    if TruthyId(selectedCategoryId) then
      var category := FindCategory(categories, selectedCategoryId.value);
      (if category.Some? && category.value.name != "" then category.value.name else "Category") + " Products"
    else if TruthyId(selectedBrandId) then "Brand Products"
    else if TruthyText(filter.search) then "Search Results for \"" + filter.search.value + "\""
    else "All Products"
  }

  /** The title's priorities: a selected category hides brand and search, and
      a selected brand hides the search. */
  lemma TitlePriority(categories: seq<Category>, categoryId: Option<int>, brandId: Option<int>,
                      filter: ProductFilter, otherBrand: Option<int>, otherFilter: ProductFilter)
    ensures TruthyId(categoryId) ==>
      PageTitle(categories, categoryId, brandId, filter) == PageTitle(categories, categoryId, otherBrand, otherFilter)
    ensures !TruthyId(categoryId) && TruthyId(brandId) ==>
      PageTitle(categories, categoryId, brandId, filter) == PageTitle(categories, categoryId, brandId, otherFilter)
  {
  }

  /** The computed `showEmptyState`: never while loading or after an error,
      and only for an empty product list. */
  predicate ShowEmptyState(isLoading: bool, products: seq<Product>, error: Option<string>): (r: bool)
    ensures isLoading || error.Some? ==> !r
    ensures r ==> products == []
  {
    !isLoading && |products| == 0 && error.None?
  }

  /** The computed `paginatedProducts`: `products.slice(start, start + pageSize)`
      with `start = currentPage * pageSize`. */
  function Paginate(products: seq<Product>, currentPage: nat, pageSize: nat): (r: seq<Product>)
    ensures |r| <= pageSize
    ensures currentPage * pageSize >= |products| ==> r == []
    ensures currentPage * pageSize < |products| ==>
      |r| == (if |products| - currentPage * pageSize < pageSize then |products| - currentPage * pageSize else pageSize)
    ensures forall i :: 0 <= i < |r| ==> r[i] == products[currentPage * pageSize + i]
  {
    var start := currentPage * pageSize;
    if start >= |products| then []
    else if start + pageSize >= |products| then products[start..]
    else products[start..start + pageSize]
  }

  /** The pages from `page` on, in order. */
  function PagesFrom(products: seq<Product>, pageSize: nat, page: nat): seq<Product>
    requires pageSize > 0
    decreases |products| - page * pageSize
  {
    if page * pageSize >= |products| then []
    else Paginate(products, page, pageSize) + PagesFrom(products, pageSize, page + 1)
  }

  /** With a positive page size, the pages laid end to end are exactly the
      product list: no product is skipped or shown twice. */
  lemma {:induction false} PagesCoverList(products: seq<Product>, pageSize: nat, page: nat)
    requires pageSize > 0
    requires page * pageSize <= |products|
    ensures PagesFrom(products, pageSize, page) == products[page * pageSize..]
    decreases |products| - page * pageSize
  {
    var start := page * pageSize;
    if start < |products| {
      var next := (page + 1) * pageSize;
      assert next == start + pageSize;
      if next <= |products| {
        assert Paginate(products, page, pageSize) == products[start..next];
        PagesCoverList(products, pageSize, page + 1);
        assert products[start..] == products[start..next] + products[next..];
      } else {
        assert Paginate(products, page, pageSize) == products[start..];
        assert PagesFrom(products, pageSize, page + 1) == [];
      }
    }
  }

  /** The component's signal fields. */
  class ProductListView {
    var products: seq<Product>
    var categories: seq<Category>
    var isLoading: bool
    var error: Option<string>
    var totalProducts: nat
    var pageSize: nat
    var currentPage: nat
    var currentFilter: ProductFilter
    var selectedCategoryId: Option<int>
    var selectedBrandId: Option<int>

    constructor()
      ensures products == [] && categories == [] && !isLoading && error == None
      ensures totalProducts == 0 && pageSize == 12 && currentPage == 0
      ensures currentFilter == EmptyFilter && selectedCategoryId == None && selectedBrandId == None
    {
      products, categories, isLoading, error := [], [], false, None;
      totalProducts, pageSize, currentPage := 0, 12, 0;
      currentFilter, selectedCategoryId, selectedBrandId := EmptyFilter, None, None;
    }

    /** The first half of `loadProducts`: mark loading, clear the error, and
        request products for the current filter. */
    method BeginLoad() returns (request: ProductFilter)
      modifies this
      ensures request == currentFilter
      ensures isLoading && error == None && !ShowEmptyState(isLoading, products, error)
      ensures products == old(products) && categories == old(categories) && totalProducts == old(totalProducts)
      ensures pageSize == old(pageSize) && currentPage == old(currentPage) && currentFilter == old(currentFilter)
      ensures selectedCategoryId == old(selectedCategoryId) && selectedBrandId == old(selectedBrandId)
    {
      isLoading := true;
      error := None;
      request := currentFilter;
    }

    /** The second half of `loadProducts`: a delivered list replaces the
        products and their count; an error sets the message. Loading ends either way. */
    method CompleteLoad(reply: Delivery<seq<Product>>)
      modifies this
      ensures !isLoading
      ensures reply.Delivered? ==> products == reply.value && totalProducts == |reply.value| && error == old(error)
      ensures reply.Errored? ==> error == Some(LoadErrorMessage) && products == old(products) && totalProducts == old(totalProducts)
      ensures reply.Errored? ==> !ShowEmptyState(isLoading, products, error)
      ensures reply.Delivered? && old(error).None? ==> (ShowEmptyState(isLoading, products, error) <==> reply.value == [])
      ensures categories == old(categories) && pageSize == old(pageSize) && currentPage == old(currentPage)
      ensures currentFilter == old(currentFilter)
      ensures selectedCategoryId == old(selectedCategoryId) && selectedBrandId == old(selectedBrandId)
    {
      match reply
      case Delivered(ps) =>
        products := ps;
        totalProducts := |ps|;
        isLoading := false;
      case Errored =>
        error := Some(LoadErrorMessage);
        isLoading := false;
    }

    /** `onPageChange`: copy the page index and size from the event. */
    method OnPageChange(pageIndex: nat, size: nat)
      modifies this
      ensures currentPage == pageIndex && pageSize == size
      ensures products == old(products) && categories == old(categories) && isLoading == old(isLoading)
      ensures error == old(error) && totalProducts == old(totalProducts) && currentFilter == old(currentFilter)
      ensures selectedCategoryId == old(selectedCategoryId) && selectedBrandId == old(selectedBrandId)
    {
      currentPage := pageIndex;
      pageSize := size;
    }

    /** `onFilterChange`: take the filter, go back to the first page, reload. */
    method OnFilterChange(filter: ProductFilter) returns (request: ProductFilter)
      modifies this
      ensures currentFilter == filter && currentPage == 0 && request == filter
      ensures isLoading && error == None
      ensures products == old(products) && categories == old(categories) && totalProducts == old(totalProducts)
      ensures pageSize == old(pageSize)
      ensures selectedCategoryId == old(selectedCategoryId) && selectedBrandId == old(selectedBrandId)
    {
      currentFilter := filter;
      currentPage := 0;
      request := BeginLoad();
    }

    /** `onCategorySelect`: select the category, drop the brand, filter by the
        category alone, go back to the first page, reload. */
    method OnCategorySelect(categoryId: int) returns (request: ProductFilter)
      modifies this
      ensures selectedCategoryId == Some(categoryId) && selectedBrandId == None
      ensures currentFilter == CategoryFilter(categoryId) && currentPage == 0 && request == currentFilter
      ensures isLoading && error == None
      ensures products == old(products) && categories == old(categories) && totalProducts == old(totalProducts)
      ensures pageSize == old(pageSize)
    {
      selectedCategoryId := Some(categoryId);
      selectedBrandId := None;
      currentFilter := CategoryFilter(categoryId);
      currentPage := 0;
      request := BeginLoad();
    }

    /** `clearFilters`: no category, no brand, the empty filter, the first page, reload. */
    method ClearFilters() returns (request: ProductFilter)
      modifies this
      ensures selectedCategoryId == None && selectedBrandId == None
      ensures currentFilter == EmptyFilter && currentPage == 0 && request == EmptyFilter
      ensures isLoading && error == None
      ensures PageTitle(categories, selectedCategoryId, selectedBrandId, currentFilter) == "All Products"
      ensures products == old(products) && categories == old(categories) && totalProducts == old(totalProducts)
      ensures pageSize == old(pageSize)
    {
      selectedCategoryId := None;
      selectedBrandId := None;
      currentFilter := EmptyFilter;
      currentPage := 0;
      request := BeginLoad();
    }
  }
}
