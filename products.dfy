/** The logic of `product-service.ts` that does not talk to the network: turning
    a product filter into query parameters, resolving image URLs, and product
    availability. The API base URL is a parameter. */
module Products {
  import opened Common
  import opened Text

  datatype ProductImage = ProductImage(id: int, imageUrl: Option<string>, productId: int)

  /** The fields of a product that the modelled code reads. */
  datatype Product = Product(
    id: int,
    title: string,
    price: int,
    stock: int,
    thumbnailUrl: Option<string>,
    brandId: int,
    categoryId: int,
    isDeleted: bool,
    productImageUrls: Option<seq<ProductImage>>)

  datatype Category = Category(id: int, name: string)

  /** A product filter; `None` is a key that is absent, `undefined` or `null`. */
  datatype ProductFilter = ProductFilter(
    search: Option<string>,
    minPrice: Option<real>,
    maxPrice: Option<real>,
    minRating: Option<real>,
    sortBy: Option<string>,
    sortOrder: Option<string>,
    categoryId: Option<int>,
    brandId: Option<int>)

  /** `{}`. */
  const EmptyFilter := ProductFilter(None, None, None, None, None, None, None, None)

  /** `{ categoryId }`. */
  function CategoryFilter(categoryId: int): ProductFilter
  {
    EmptyFilter.(categoryId := Some(categoryId))
  }

  /** A query-parameter value before it is rendered with `toString()`. */
  datatype ParamValue = Text(s: string) | Number(x: real)

  datatype QueryParam = QueryParam(key: string, value: ParamValue)

  // ---------------------------------------------------------------------------
  // getAllProducts: filter to query parameters
  // ---------------------------------------------------------------------------

  /** The filter's keys with their values, in the order the filters built by the
      components insert them. */
  function FilterEntries(f: ProductFilter): (entries: seq<(string, Option<ParamValue>)>)
    ensures |entries| == 8
  {
    [ ("search", if f.search.Some? then Some(Text(f.search.value)) else None),
      ("minPrice", if f.minPrice.Some? then Some(Number(f.minPrice.value)) else None),
      ("maxPrice", if f.maxPrice.Some? then Some(Number(f.maxPrice.value)) else None),
      ("minRating", if f.minRating.Some? then Some(Number(f.minRating.value)) else None),
      ("sortBy", if f.sortBy.Some? then Some(Text(f.sortBy.value)) else None),
      ("sortOrder", if f.sortOrder.Some? then Some(Text(f.sortOrder.value)) else None),
      ("categoryId", if f.categoryId.Some? then Some(Number(f.categoryId.value as real)) else None),
      ("brandId", if f.brandId.Some? then Some(Number(f.brandId.value as real)) else None) ]
  }

  /** The value test of `getAllProducts`: not `undefined`, not `null`, not `''`. */
  predicate IsSent(v: Option<ParamValue>)
  {
    v.Some? && v.value != Text("")
  }

  /** The parameters appended for `entries`, in order. */
  function Kept(entries: seq<(string, Option<ParamValue>)>): (params: seq<QueryParam>)
    ensures |params| <= |entries|
  {
    if entries == [] then []
    else
      var last := entries[|entries| - 1];
      Kept(entries[..|entries| - 1]) + (if IsSent(last.1) then [QueryParam(last.0, last.1.value)] else [])
  }

  /** A parameter is appended exactly for each entry whose value passes the test. */
  lemma {:induction false} KeptExactlySent(entries: seq<(string, Option<ParamValue>)>, key: string, v: ParamValue)
    ensures QueryParam(key, v) in Kept(entries) <==> (key, Some(v)) in entries && v != Text("")
  {
    if entries != [] {
      var front := entries[..|entries| - 1];
      KeptExactlySent(front, key, v);
      assert entries == front + [entries[|entries| - 1]];
    }
  }

  /** `getAllProducts`' parameter loop. */
  method GetAllProductsParams(filter: Option<ProductFilter>) returns (params: seq<QueryParam>)
    ensures filter.None? ==> params == []
    ensures filter.Some? ==> params == Kept(FilterEntries(filter.value))
  {
    params := [];
    if filter.Some? {
      var entries := FilterEntries(filter.value);
      var i := 0;
      while i < |entries|
        invariant 0 <= i <= |entries|
        invariant params == Kept(entries[..i])
      {
        var (key, value) := entries[i];
        if value.Some? && value.value != Text("") {
          params := params + [QueryParam(key, value.value)];
        }
        assert entries[..i + 1][..i] == entries[..i];
        i := i + 1;
      }
      assert entries[..i] == entries;
    }
  }

  /** With no value to send, no parameter is appended. */
  lemma {:induction false} KeptNothingSent(entries: seq<(string, Option<ParamValue>)>)
    requires forall i :: 0 <= i < |entries| ==> entries[i].1.None?
    ensures Kept(entries) == []
  {
    if entries != [] {
      KeptNothingSent(entries[..|entries| - 1]);
    }
  }

  /** What `getAllProducts` sends for the text keys of a filter: the key with
      its own value, exactly when the value is present and not `''`. */
  lemma FilterTextParams(f: ProductFilter)
    ensures var params := Kept(FilterEntries(f));
      && (forall s :: QueryParam("search", Text(s)) in params <==> f.search == Some(s) && s != "")
      && (forall s :: QueryParam("sortBy", Text(s)) in params <==> f.sortBy == Some(s) && s != "")
      && (forall s :: QueryParam("sortOrder", Text(s)) in params <==> f.sortOrder == Some(s) && s != "")
  {
    var e := FilterEntries(f);
    forall s ensures QueryParam("search", Text(s)) in Kept(e) <==> f.search == Some(s) && s != "" {
      KeptExactlySent(e, "search", Text(s));
    }
    forall s ensures QueryParam("sortBy", Text(s)) in Kept(e) <==> f.sortBy == Some(s) && s != "" {
      KeptExactlySent(e, "sortBy", Text(s));
    }
    forall s ensures QueryParam("sortOrder", Text(s)) in Kept(e) <==> f.sortOrder == Some(s) && s != "" {
      KeptExactlySent(e, "sortOrder", Text(s));
    }
  }

  /** What `getAllProducts` sends for the numeric keys: the key with its own
      value exactly when the value is present, so a price or rating of 0 is kept. */
  lemma FilterNumberParams(f: ProductFilter)
    ensures var params := Kept(FilterEntries(f));
      && (forall x :: QueryParam("minPrice", Number(x)) in params <==> f.minPrice == Some(x))
      && (forall x :: QueryParam("maxPrice", Number(x)) in params <==> f.maxPrice == Some(x))
      && (forall x :: QueryParam("minRating", Number(x)) in params <==> f.minRating == Some(x))
  {
    var e := FilterEntries(f);
    forall x ensures QueryParam("minPrice", Number(x)) in Kept(e) <==> f.minPrice == Some(x) {
      KeptExactlySent(e, "minPrice", Number(x));
    }
    forall x ensures QueryParam("maxPrice", Number(x)) in Kept(e) <==> f.maxPrice == Some(x) {
      KeptExactlySent(e, "maxPrice", Number(x));
    }
    forall x ensures QueryParam("minRating", Number(x)) in Kept(e) <==> f.minRating == Some(x) {
      KeptExactlySent(e, "minRating", Number(x));
    }
  }

  /** The id keys are sent exactly when present, and the empty filter sends nothing. */
  lemma FilterIdParams(f: ProductFilter)
    ensures var params := Kept(FilterEntries(f));
      && (forall x :: QueryParam("categoryId", Number(x)) in params <==> f.categoryId.Some? && f.categoryId.value as real == x)
      && (forall x :: QueryParam("brandId", Number(x)) in params <==> f.brandId.Some? && f.brandId.value as real == x)
    ensures Kept(FilterEntries(EmptyFilter)) == []
  {
    var e := FilterEntries(f);
    forall x ensures QueryParam("categoryId", Number(x)) in Kept(e) <==> f.categoryId.Some? && f.categoryId.value as real == x {
      KeptExactlySent(e, "categoryId", Number(x));
    }
    forall x ensures QueryParam("brandId", Number(x)) in Kept(e) <==> f.brandId.Some? && f.brandId.value as real == x {
      KeptExactlySent(e, "brandId", Number(x));
    }
    KeptNothingSent(FilterEntries(EmptyFilter));
  }

  /** `searchProductsByPrice`: each bound is sent exactly when it is given. */
  method PriceSearchParams(minPrice: Option<real>, maxPrice: Option<real>) returns (params: seq<QueryParam>)
    ensures |params| == (if minPrice.Some? then 1 else 0) + (if maxPrice.Some? then 1 else 0)
    ensures forall x :: QueryParam("minPrice", Number(x)) in params <==> minPrice == Some(x)
    ensures forall x :: QueryParam("maxPrice", Number(x)) in params <==> maxPrice == Some(x)
    ensures forall p :: p in params ==> p.key == "minPrice" || p.key == "maxPrice"
  {
    params := [];
    if minPrice.Some? {
      params := params + [QueryParam("minPrice", Number(minPrice.value))];
    }
    if maxPrice.Some? {
      params := params + [QueryParam("maxPrice", Number(maxPrice.value))];
    }
  }

  // ---------------------------------------------------------------------------
  // Image URLs
  // ---------------------------------------------------------------------------

  /** `${apiURL}/Files/Images/ProductImages/`. */
  function ImagesPrefix(apiUrl: string): string
  {
    apiUrl + "/Files/Images/ProductImages/"
  }

  function DefaultImageUrl(apiUrl: string): string
  {
    ImagesPrefix(apiUrl) + "default-product.png"
  }

  /** `getProductImageUrl`: the default image for a missing or empty path, an
      `https` URL as it is, any other path under the images prefix. */
  function ProductImageUrl(apiUrl: string, imagePath: Option<string>): (r: string)
    ensures !TruthyText(imagePath) ==> r == DefaultImageUrl(apiUrl)
    ensures TruthyText(imagePath) ==> EndsWith(r, imagePath.value)
    ensures TruthyText(imagePath) && StartsWith(imagePath.value, "https") ==> r == imagePath.value
    ensures TruthyText(imagePath) && !StartsWith(imagePath.value, "https") ==>
      StartsWith(r, ImagesPrefix(apiUrl)) && |r| == |ImagesPrefix(apiUrl)| + |imagePath.value|
    ensures r != ""
  {
    if !TruthyText(imagePath) then DefaultImageUrl(apiUrl)
    else if StartsWith(imagePath.value, "https") then imagePath.value
    else ImagesPrefix(apiUrl) + imagePath.value
  }

  /** When the API itself is served over `https`, resolving an already resolved
      URL changes nothing. */
  lemma ResolvedUrlIsFixedPoint(apiUrl: string, imagePath: Option<string>)
    requires StartsWith(apiUrl, "https")
    ensures ProductImageUrl(apiUrl, Some(ProductImageUrl(apiUrl, imagePath))) == ProductImageUrl(apiUrl, imagePath)
  {
    var r := ProductImageUrl(apiUrl, imagePath);
    if !TruthyText(imagePath) || !StartsWith(imagePath.value, "https") {
      assert r[..5] == apiUrl[..5];
    }
  }

  /** Over plain `http` the prefix is applied again: resolving twice is not resolving once. */
  lemma HttpApiPrefixesTwice(apiUrl: string, path: string)
    requires |apiUrl| >= 5 && !StartsWith(apiUrl, "https")
    requires path != "" && !StartsWith(path, "https")
    ensures ProductImageUrl(apiUrl, Some(ProductImageUrl(apiUrl, Some(path))))
      == ImagesPrefix(apiUrl) + ImagesPrefix(apiUrl) + path
  {
    var once := ProductImageUrl(apiUrl, Some(path));
    assert once[..5] == apiUrl[..5];
  }

  /** The product's image list, empty when absent. */
  function Images(p: Product): seq<ProductImage>
  {
    if p.productImageUrls.Some? then p.productImageUrls.value else []
  }

  /** `getThumbnailUrl`: the thumbnail if set, else the first gallery image, else the default. */
  function ThumbnailUrl(apiUrl: string, p: Product): (r: string)
    ensures TruthyText(p.thumbnailUrl) ==> r == ProductImageUrl(apiUrl, p.thumbnailUrl)
    ensures !TruthyText(p.thumbnailUrl) && Images(p) != [] ==> r == ProductImageUrl(apiUrl, Images(p)[0].imageUrl)
    ensures !TruthyText(p.thumbnailUrl) && Images(p) == [] ==> r == DefaultImageUrl(apiUrl)
  {
    if TruthyText(p.thumbnailUrl) then ProductImageUrl(apiUrl, p.thumbnailUrl)
    else if Images(p) != [] then ProductImageUrl(apiUrl, Images(p)[0].imageUrl)
    else ProductImageUrl(apiUrl, None)
  }

  /** `getProductGalleryImages`: every image resolved in order, or the default alone. */
  function GalleryImages(apiUrl: string, p: Product): (r: seq<string>)
    ensures |r| == if Images(p) == [] then 1 else |Images(p)|
    ensures Images(p) == [] ==> r == [DefaultImageUrl(apiUrl)]
    ensures forall i :: 0 <= i < |Images(p)| ==> r[i] == ProductImageUrl(apiUrl, Images(p)[i].imageUrl)
  {
    var imgs := Images(p);
    if imgs == [] then [ProductImageUrl(apiUrl, None)]
    else seq(|imgs|, i requires 0 <= i < |imgs| => ProductImageUrl(apiUrl, imgs[i].imageUrl))
  }

  /** Without its own thumbnail, a product's thumbnail is the first picture of its gallery. */
  lemma ThumbnailLeadsGallery(apiUrl: string, p: Product)
    requires !TruthyText(p.thumbnailUrl)
    ensures ThumbnailUrl(apiUrl, p) == GalleryImages(apiUrl, p)[0]
  {
  }

  /** `isProductAvailable`: a deleted product or one out of stock is never
      available. */
  predicate IsProductAvailable(p: Product): (r: bool)
    ensures p.isDeleted ==> !r
    ensures p.stock <= 0 ==> !r
  {
    p.stock > 0 && !p.isDeleted
  }

  /** A product is unavailable exactly when it is out of stock or deleted,
      whatever its images and price. */
  lemma AvailabilityDependsOnStockAndDeletion(p: Product, q: Product)
    requires p.stock == q.stock && p.isDeleted == q.isDeleted
    ensures IsProductAvailable(p) == IsProductAvailable(q)
    ensures !IsProductAvailable(p) <==> p.stock <= 0 || p.isDeleted
  {
  }
}
