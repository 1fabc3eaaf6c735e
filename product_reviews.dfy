/** The scraped ASUS desktop records of `get_product_reviews.py`: the review
    lookup with its (0, 0) fallback, the record built for each search hit, and
    the two filters that pick the best-rated and the i5 products. */
module ProductReviews {
  import opened Common

  /** The fields of a review answer that the lookup reads; a field is None
      when the key is missing from the JSON object. */
  datatype ReviewData = ReviewData(avgLikes: Option<real>, totalRows: Option<int>)

  /** The pair `(avg_rating, total_reviews)` attached to a product. */
  datatype Reviews = Reviews(avgRating: real, totalReviews: int)

  /** `get_product_reviews`: `response` is None when the request, its status
      check or the JSON decoding failed. A failure gives (0, 0); a missing key
      defaults to 0. */
  function LookupReviews(response: Option<ReviewData>): (r: Reviews)
    ensures response.None? ==> r == Reviews(0.0, 0)
    ensures response.Some? && response.value.avgLikes.Some? ==>
      r.avgRating == response.value.avgLikes.value
    ensures response.Some? && response.value.avgLikes.None? ==> r.avgRating == 0.0
    ensures response.Some? && response.value.totalRows.Some? ==>
      r.totalReviews == response.value.totalRows.value
    ensures response.Some? && response.value.totalRows.None? ==> r.totalReviews == 0
  {
    match response
    case None => Reviews(0.0, 0)
    case Some(data) =>
      Reviews(
        if data.avgLikes.Some? then data.avgLikes.value else 0.0,
        if data.totalRows.Some? then data.totalRows.value else 0)
  }

  /** One entry of `all_products`. */
  datatype ScrapedProduct = ScrapedProduct(
    id: string,
    name: string,
    price: int,
    description: string,
    avgRating: real,
    totalReviews: int)

  /** The record built for a search hit from its fields and its review lookup. */
  function BuildRecord(id: string, name: string, price: int, description: string,
                       response: Option<ReviewData>): ScrapedProduct
  {
    var reviews := LookupReviews(response);
    ScrapedProduct(id, name, price, description, reviews.avgRating, reviews.totalReviews)
  }

  // ---------------------------------------------------------------------------
  // Task 2: at least one review and an average rating above 4.9
  // ---------------------------------------------------------------------------

  predicate IsBest(p: ScrapedProduct)
  {
    p.totalReviews >= 1 && p.avgRating > 4.9
  }

  /** `task2_save_best_products`: the products that pass, in input order. */
  method SaveBestProducts(products: seq<ScrapedProduct>) returns (best: seq<ScrapedProduct>)
    ensures best == Filter(IsBest, products)
    ensures |best| <= |products|
    ensures forall p :: p in best <==> p in products && p.totalReviews >= 1 && p.avgRating > 4.9
  {
    best := [];
    for i := 0 to |products|
      invariant best == Filter(IsBest, products[..i])
    {
      var p := products[i];
      assert products[..i + 1] == products[..i] + [p];
      FilterSnoc(IsBest, products[..i], p);
      if p.totalReviews >= 1 && p.avgRating > 4.9 {
        best := best + [p];
      }
    }
    assert products[..|products|] == products;
    forall p ensures p in best <==> p in products && p.totalReviews >= 1 && p.avgRating > 4.9 {
      FilterMembership(IsBest, products, p);
    }
  }

  /** A product whose review lookup failed carries (0, 0) and is never among
      the best products, whatever list it appears in. */
  lemma FailedLookupNeverBest(products: seq<ScrapedProduct>, id: string, name: string,
                              price: int, description: string)
    ensures BuildRecord(id, name, price, description, None) !in Filter(IsBest, products)
  {
    FilterMembership(IsBest, products, BuildRecord(id, name, price, description, None));
  }

  /** An answer without a `TotalRows` key counts as no review, so the product
      is never among the best ones either. */
  lemma MissingTotalRowsNeverBest(products: seq<ScrapedProduct>, id: string, name: string,
                                  price: int, description: string, avgLikes: Option<real>)
    ensures BuildRecord(id, name, price, description, Some(ReviewData(avgLikes, None)))
            !in Filter(IsBest, products)
  {
    var p := BuildRecord(id, name, price, description, Some(ReviewData(avgLikes, None)));
    FilterMembership(IsBest, products, p);
  }

  // ---------------------------------------------------------------------------
  // Task 3: products whose name mentions i5, and their average price
  // ---------------------------------------------------------------------------

  /** `'i5' in product['name'].lower()`; there is no brand test. */
  predicate HasI5(p: ScrapedProduct)
  {
    Contains(Lower(p.name), "i5")
  }

  function PriceOf(p: ScrapedProduct): int
  {
    p.price
  }

  /** `task3_calculate_i5_average_price`: the selected products in input
      order and `total_price / len(i5_products)`, or no average when nothing
      was selected. */
  method CalculateI5AveragePrice(products: seq<ScrapedProduct>)
    returns (i5Products: seq<ScrapedProduct>, average: Option<real>)
    ensures i5Products == Filter(HasI5, products)
    ensures forall p :: p in i5Products <==> p in products && HasI5(p)
    ensures average.None? <==> i5Products == []
    ensures average.Some? ==>
      var prices := Map(PriceOf, i5Products);
      |prices| > 0 && average.value == Sum(prices) as real / |prices| as real
      && Min(prices) as real <= average.value <= Max(prices) as real
  {
    i5Products := [];
    for i := 0 to |products|
      invariant i5Products == Filter(HasI5, products[..i])
    {
      var p := products[i];
      assert products[..i + 1] == products[..i] + [p];
      FilterSnoc(HasI5, products[..i], p);
      if Contains(Lower(p.name), "i5") {
        i5Products := i5Products + [p];
      }
    }
    assert products[..|products|] == products;
    forall p ensures p in i5Products <==> p in products && HasI5(p) {
      FilterMembership(HasI5, products, p);
    }
    if i5Products != [] {
      MapLength(PriceOf, i5Products);
      average := Some(Average(Map(PriceOf, i5Products)));
    } else {
      average := None;
    }
  }
}
