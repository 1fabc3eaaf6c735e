/** The offline analysis of the crawled PChome product list: the ID export
    (task 1), the best-rated selection with its counters (task 2), the ASUS
    processor breakdown and i5 average price (task 3), the ASUS price
    population and its z-score banding (task 4), and the brand and rating
    statistics shown after crawling.

    A product is a JSON object whose keys may be missing; `None` stands for a
    missing key, so `product.get(key, default)` is `GetOr` on the field. */
module PchomeAnalysis {
  import opened Common

  datatype Product = Product(
    id: Option<string>,
    name: Option<string>,
    brand: Option<string>,
    price: Option<int>,
    rating: Option<real>,
    reviewCount: Option<int>)

  /** `product.get('Brand', default)`. */
  function BrandOr(p: Product, default: string): string
  {
    if p.brand.Some? then p.brand.value else default
  }

  /** `product.get('Name', default)`. */
  function NameOr(p: Product, default: string): string
  {
    if p.name.Some? then p.name.value else default
  }

  /** The price of a product known to have one. */
  function PriceOf(p: Product): int
  {
    if p.price.Some? then p.price.value else 0
  }

  // ---------------------------------------------------------------------------
  // Task 1: every product ID
  // ---------------------------------------------------------------------------

  /** `if product.get('Id'):` -- present and not the empty string. */
  predicate HasId(p: Product)
  {
    p.id.Some? && p.id.value != ""
  }

  function IdOf(p: Product): string
  {
    if p.id.Some? then p.id.value else ""
  }

  /** `task_1_extract_all_ids`: the non-empty IDs, in input order. */
  method ExtractAllIds(products: seq<Product>) returns (ids: seq<string>)
    ensures ids == Map(IdOf, Filter(HasId, products))
    ensures |ids| <= |products|
    ensures forall x :: x in ids <==> x != "" && Some(x) in IdsPresent(products)
  {
    ids := [];
    for i := 0 to |products|
      invariant ids == Map(IdOf, Filter(HasId, products[..i]))
    {
      FilterSnoc(HasId, products[..i], products[i]);
      assert products[..i + 1] == products[..i] + [products[i]];
      if HasId(products[i]) {
        assert Filter(HasId, products[..i + 1]) == Filter(HasId, products[..i]) + [products[i]];
        MapSnoc(IdOf, Filter(HasId, products[..i]), products[i]);
        ids := ids + [products[i].id.value];
      } else {
        assert Filter(HasId, products[..i + 1]) == Filter(HasId, products[..i]);
      }
    }
    assert products[..|products|] == products;
    MapLength(IdOf, Filter(HasId, products));
    forall x ensures x in ids <==> x != "" && Some(x) in IdsPresent(products) {
      MapMembership(IdOf, Filter(HasId, products), x);
      if x in ids {
        var p :| p in Filter(HasId, products) && IdOf(p) == x;
        FilterMembership(HasId, products, p);
      }
      if x != "" && Some(x) in IdsPresent(products) {
        var p :| p in products && p.id == Some(x);
        FilterMembership(HasId, products, p);
      }
    }
  }

  /** The set of `Id` fields of the products. */
  function IdsPresent(products: seq<Product>): set<Option<string>>
  {
    set p | p in products :: p.id
  }

  // ---------------------------------------------------------------------------
  // Task 2: rating above 4.9 with at least one review
  // ---------------------------------------------------------------------------

  predicate IsBest(p: Product)
  {
    p.rating.Some? && p.reviewCount.Some? && p.rating.value > 4.9 && p.reviewCount.value >= 1
  }

  /** Counted in `total_with_rating`. */
  predicate HasRating(p: Product)
  {
    p.rating.Some?
  }

  /** Counted in `total_with_reviews`. */
  predicate HasReviews(p: Product)
  {
    p.reviewCount.Some? && p.reviewCount.value > 0
  }

  /** `task_2_find_best_products`: the `Id` of every best product in input
      order (possibly missing), and the two counters it reports. */
  method FindBestProducts(products: seq<Product>)
    returns (bestIds: seq<Option<string>>, totalWithRating: nat, totalWithReviews: nat)
    ensures bestIds == Map((p: Product) => p.id, Filter(IsBest, products))
    ensures totalWithRating == |Filter(HasRating, products)|
    ensures totalWithReviews == |Filter(HasReviews, products)|
    ensures |bestIds| <= totalWithRating && |bestIds| <= totalWithReviews
  {
    var best: seq<Product> := [];
    totalWithRating, totalWithReviews := 0, 0;
    for i := 0 to |products|
      invariant best == Filter(IsBest, products[..i])
      invariant totalWithRating == |Filter(HasRating, products[..i])|
      invariant totalWithReviews == |Filter(HasReviews, products[..i])|
    {
      var p := products[i];
      assert products[..i + 1] == products[..i] + [p];
      FilterSnoc(IsBest, products[..i], p);
      FilterSnoc(HasRating, products[..i], p);
      FilterSnoc(HasReviews, products[..i], p);
      if p.rating.Some? {
        totalWithRating := totalWithRating + 1;
      }
      if p.reviewCount.Some? && p.reviewCount.value > 0 {
        totalWithReviews := totalWithReviews + 1;
      }
      if p.rating.Some? && p.reviewCount.Some? && p.rating.value > 4.9 && p.reviewCount.value >= 1 {
        best := best + [p];
      }
    }
    assert products[..|products|] == products;
    bestIds := IdsOf(best);
    MapLength((p: Product) => p.id, best);
    FilterWeakerCount(IsBest, HasRating, products);
    FilterWeakerCount(IsBest, HasReviews, products);
  }

  /** `[p['id'] for p in best_products]`, built by a loop. */
  method IdsOf(best: seq<Product>) returns (ids: seq<Option<string>>)
    ensures ids == Map((p: Product) => p.id, best)
  {
    ids := [];
    for i := 0 to |best|
      invariant ids == Map((p: Product) => p.id, best[..i])
    {
      assert best[..i + 1] == best[..i] + [best[i]];
      MapSnoc((p: Product) => p.id, best[..i], best[i]);
      ids := ids + [best[i].id];
    }
    assert best[..|best|] == best;
  }

  /** A product is selected by task 2 exactly when it has a rating above 4.9
      and a review count of at least one. */
  lemma BestSelection(products: seq<Product>, p: Product)
    ensures p in Filter(IsBest, products) <==>
      p in products && p.rating.Some? && p.reviewCount.Some?
      && p.rating.value > 4.9 && p.reviewCount.value >= 1
  {
    FilterMembership(IsBest, products, p);
  }

  // ---------------------------------------------------------------------------
  // Task 3: ASUS processor breakdown and the i5 average price
  // ---------------------------------------------------------------------------

  /** `'asus' in brand.lower() or '華碩' in brand`, with a missing brand read as ''. */
  predicate IsAsus(p: Product)
  {
    Contains(Lower(BrandOr(p, "")), "asus") || Contains(BrandOr(p, ""), "華碩")
  }

  datatype Processor = I3 | I5 | I7 | I9 | OtherProcessor

  /** The first of 'i3', 'i5', 'i7', 'i9' found in the lower-cased name. */
  function ProcessorOf(p: Product): Processor
  {
    var name := Lower(NameOr(p, ""));
    if Contains(name, "i3") then I3
    else if Contains(name, "i5") then I5
    else if Contains(name, "i7") then I7
    else if Contains(name, "i9") then I9
    else OtherProcessor
  }

  /** Selected for the i5 average: an ASUS product whose lower-cased name
      contains 'i5' and that has a price. The bucket chain plays no part. */
  predicate IsAsusI5(p: Product)
  {
    IsAsus(p) && Contains(Lower(NameOr(p, "")), "i5") && p.price.Some?
  }

  predicate InBucket(k: Processor, p: Product)
  {
    IsAsus(p) && ProcessorOf(p) == k
  }

  /** `all_processors[k]` after the loop. */
  function BucketCount(products: seq<Product>, k: Processor): nat
  {
    |Filter(p => InBucket(k, p), products)|
  }

  /** `task_3_calculate_i5_average_price`: the processor counts of the ASUS
      products, and the average price of the ASUS i5 products, or None when
      there is none. */
  method CalculateI5AveragePrice(products: seq<Product>)
    returns (average: Option<real>, processors: map<Processor, nat>)
    ensures forall k :: k in processors && processors[k] == BucketCount(products, k)
    ensures var prices := Map(PriceOf, Filter(IsAsusI5, products));
      average == if prices == [] then None else Some(Average(prices))
    ensures average.Some? ==>
      var prices := Map(PriceOf, Filter(IsAsusI5, products));
      |prices| > 0 && Min(prices) as real <= average.value <= Max(prices) as real
  {
    var i5Products: seq<Product> := [];
    processors := map[I3 := 0, I5 := 0, I7 := 0, I9 := 0, OtherProcessor := 0];
    forall k ensures k in processors && processors[k] == BucketCount(products[..0], k) {
      assert products[..0] == [];
      assert k.I3? || k.I5? || k.I7? || k.I9? || k.OtherProcessor?;
    }
    for i := 0 to |products|
      invariant i5Products == Filter(IsAsusI5, products[..i])
      invariant forall k :: k in processors && processors[k] == BucketCount(products[..i], k)
    {
      var p := products[i];
      assert products[..i + 1] == products[..i] + [p];
      FilterSnoc(IsAsusI5, products[..i], p);
      forall k ensures BucketCount(products[..i + 1], k)
                       == BucketCount(products[..i], k) + (if InBucket(k, p) then 1 else 0) {
        FilterSnoc(q => InBucket(k, q), products[..i], p);
      }
      var brand := Lower(BrandOr(p, ""));
      var name := Lower(NameOr(p, ""));
      if Contains(brand, "asus") || Contains(BrandOr(p, ""), "華碩") {
        var k := ProcessorOf(p);
        processors := processors[k := processors[k] + 1];
        if Contains(name, "i5") && p.price.Some? {
          i5Products := i5Products + [p];
        }
      }
    }
    assert products[..|products|] == products;
    var prices := PricesOf(i5Products);
    MapLength(PriceOf, i5Products);
    if |prices| > 0 {
      average := Some(Average(prices));
    } else {
      average := None;
    }
  }

  /** `[p['price'] for p in i5_products]`, built by a loop. */
  method PricesOf(selected: seq<Product>) returns (prices: seq<int>)
    ensures prices == Map(PriceOf, selected)
  {
    prices := [];
    for i := 0 to |selected|
      invariant prices == Map(PriceOf, selected[..i])
    {
      assert selected[..i + 1] == selected[..i] + [selected[i]];
      MapSnoc(PriceOf, selected[..i], selected[i]);
      prices := prices + [PriceOf(selected[i])];
    }
    assert selected[..|selected|] == selected;
  }

  /** The five processor counts partition the ASUS products: each ASUS
      product lands in exactly one bucket. */
  lemma {:induction false} BucketsPartitionAsus(products: seq<Product>)
    ensures BucketCount(products, I3) + BucketCount(products, I5) + BucketCount(products, I7)
          + BucketCount(products, I9) + BucketCount(products, OtherProcessor)
         == |Filter(IsAsus, products)|
  {
    if products != [] {
      var init, p := products[..|products| - 1], products[|products| - 1];
      assert products == init + [p];
      BucketsPartitionAsus(init);
      FilterSnoc(IsAsus, init, p);
      FilterSnoc(q => InBucket(I3, q), init, p);
      FilterSnoc(q => InBucket(I5, q), init, p);
      FilterSnoc(q => InBucket(I7, q), init, p);
      FilterSnoc(q => InBucket(I9, q), init, p);
      FilterSnoc(q => InBucket(OtherProcessor, q), init, p);
    }
  }

  /** The bucket chain and the i5 selection are independent: a priced ASUS
      product whose lower-cased name contains both 'i3' and 'i5' is counted
      as i3 and still enters the i5 average. */
  lemma I3AndI5NameIsCountedAsI3YetSelected(p: Product)
    requires IsAsus(p) && p.price.Some?
    requires Contains(Lower(NameOr(p, "")), "i3") && Contains(Lower(NameOr(p, "")), "i5")
    ensures ProcessorOf(p) == I3 && IsAsusI5(p)
  {
  }

  /** Such products exist: an ASUS product named "Core i3 i5". */
  lemma CoreI3I5IsCountedAsI3YetSelected(p: Product)
    requires p == Product(Some("A1"), Some("Core i3 i5"), Some("ASUS"), Some(1000), None, None)
    ensures ProcessorOf(p) == I3 && IsAsusI5(p)
  {
    var name := Lower(NameOr(p, ""));
    assert name == "core i3 i5";
    ContainsAt(name, "i3", 5);
    ContainsAt(name, "i5", 8);
    assert Lower(BrandOr(p, "")) == "asus";
    ContainsAt("asus", "asus", 0);
    I3AndI5NameIsCountedAsI3YetSelected(p);
  }

  // ---------------------------------------------------------------------------
  // Task 4: the ASUS price population and its z-score bands
  // ---------------------------------------------------------------------------

  predicate IsAsusPriced(p: Product)
  {
    IsAsus(p) && p.price.Some?
  }

  /** Every price of the list is the same. */
  predicate AllEqual(prices: seq<int>)
  {
    forall i, j :: 0 <= i < |prices| && 0 <= j < |prices| ==> prices[i] == prices[j]
  }

  /** Every product of the list has an `Id`. */
  predicate AllHaveId(selected: seq<Product>)
  {
    forall p :: p in selected ==> p.id.Some?
  }

  /** The guards of `task_4_calculate_price_zscore`: the prices of the ASUS
      products that have one, or None when fewer than two exist. None also
      when every price is the same: the population standard deviation is
      then 0, the division that computes a z-score raises, and the handler
      turns that into None. None, finally, when one of those products has no
      `Id`: the z-score loop slices each product's id for its report line,
      which raises on a missing one. */
  method ZScorePopulation(products: seq<Product>) returns (population: Option<seq<int>>)
    ensures var prices := Map(PriceOf, Filter(IsAsusPriced, products));
      population.None? <==>
        |prices| < 2 || AllEqual(prices) || !AllHaveId(Filter(IsAsusPriced, products))
    ensures population.Some? ==>
      population.value == Map(PriceOf, Filter(IsAsusPriced, products))
      && |population.value| >= 2 && Min(population.value) < Max(population.value)
  {
    var asusProducts: seq<Product> := [];
    for i := 0 to |products|
      invariant asusProducts == Filter(IsAsusPriced, products[..i])
    {
      var p := products[i];
      assert products[..i + 1] == products[..i] + [p];
      FilterSnoc(IsAsusPriced, products[..i], p);
      if (Contains(Lower(BrandOr(p, "")), "asus") || Contains(BrandOr(p, ""), "華碩")) && p.price.Some? {
        asusProducts := asusProducts + [p];
      }
    }
    assert products[..|products|] == products;
    MapLength(PriceOf, asusProducts);
    var prices := PricesOf(asusProducts);
    if |prices| < 2 {
      population := None;
    } else if Min(prices) == Max(prices) {
      SpreadIsZeroIffAllEqual(prices);
      population := None;
    } else {
      SpreadIsZeroIffAllEqual(prices);
      // The z-score loop visits the products in order and stops at the
      // first one without an `Id`.
      var i := 0;
      while i < |asusProducts| && asusProducts[i].id.Some?
        invariant 0 <= i <= |asusProducts|
        invariant forall j :: 0 <= j < i ==> asusProducts[j].id.Some?
      {
        i := i + 1;
      }
      if i < |asusProducts| {
        assert asusProducts[i] in asusProducts;
        population := None;
      } else {
        assert AllHaveId(asusProducts) by {
          forall p | p in asusProducts ensures p.id.Some? {
            var j :| 0 <= j < |asusProducts| && asusProducts[j] == p;
          }
        }
        population := Some(prices);
      }
    }
  }

  /** The smallest and the largest price coincide exactly when all prices do. */
  lemma SpreadIsZeroIffAllEqual(prices: seq<int>)
    requires |prices| > 0
    ensures Min(prices) == Max(prices) <==> AllEqual(prices)
  {
    if !AllEqual(prices) {
      var i, j :| 0 <= i < |prices| && 0 <= j < |prices| && prices[i] != prices[j];
      assert prices[i] in prices && prices[j] in prices;
    } else {
      var lo, hi := Min(prices), Max(prices);
      var a :| 0 <= a < |prices| && prices[a] == lo;
      var b :| 0 <= b < |prices| && prices[b] == hi;
    }
  }

  datatype Band = ExtremeLow | Low | Normal | High | ExtremeHigh

  /** The category chain of the console report: first match of z > 2,
      z > 1, z < -2, z < -1, otherwise normal. Its result is the band whose
      interval (as the summary lines print them) contains z. */
  function ZBand(z: real): (b: Band)
    ensures b == ExtremeHigh <==> z > 2.0
    ensures b == High <==> 1.0 < z <= 2.0
    ensures b == Normal <==> -1.0 <= z <= 1.0
    ensures b == Low <==> -2.0 <= z < -1.0
    ensures b == ExtremeLow <==> z < -2.0
  {
    if z > 2.0 then ExtremeHigh
    else if z > 1.0 then High
    else if z < -2.0 then ExtremeLow
    else if z < -1.0 then Low
    else Normal
  }

  /** The key of `categories` each band is counted under. */
  function BandName(b: Band): string
  {
    match b
    case ExtremeHigh => "極高價"
    case High => "高價"
    case Normal => "正常"
    case Low => "低價"
    case ExtremeLow => "極低價"
  }

  /** The category chain repeated for the CSV rows. */
  function CsvCategory(z: real): string
  {
    if z > 2.0 then "極高價"
    else if z > 1.0 then "高價"
    else if z < -2.0 then "極低價"
    else if z < -1.0 then "低價"
    else "正常"
  }

  /** The CSV relabelling names the same category as the console count. */
  lemma CsvCategoryAgrees(z: real)
    ensures CsvCategory(z) == BandName(ZBand(z))
  {
  }

  function BandCount(zScores: seq<real>, b: Band): nat
  {
    |Filter(z => ZBand(z) == b, zScores)|
  }

  /** `categories` after the classification loop. */
  method CountCategories(zScores: seq<real>) returns (categories: map<Band, nat>)
    ensures forall b :: b in categories && categories[b] == BandCount(zScores, b)
  {
    categories := map[ExtremeLow := 0, Low := 0, Normal := 0, High := 0, ExtremeHigh := 0];
    forall b ensures b in categories && categories[b] == BandCount(zScores[..0], b) {
      assert zScores[..0] == [];
      assert b.ExtremeLow? || b.Low? || b.Normal? || b.High? || b.ExtremeHigh?;
    }
    for i := 0 to |zScores|
      invariant forall b :: b in categories && categories[b] == BandCount(zScores[..i], b)
    {
      var z := zScores[i];
      assert zScores[..i + 1] == zScores[..i] + [z];
      forall b ensures BandCount(zScores[..i + 1], b) == BandCount(zScores[..i], b) + (if ZBand(z) == b then 1 else 0) {
        FilterSnoc(y => ZBand(y) == b, zScores[..i], z);
      }
      if z > 2.0 {
        categories := categories[ExtremeHigh := categories[ExtremeHigh] + 1];
      } else if z > 1.0 {
        categories := categories[High := categories[High] + 1];
      } else if z < -2.0 {
        categories := categories[ExtremeLow := categories[ExtremeLow] + 1];
      } else if z < -1.0 {
        categories := categories[Low := categories[Low] + 1];
      } else {
        categories := categories[Normal := categories[Normal] + 1];
      }
    }
    assert zScores[..|zScores|] == zScores;
  }

  /** The five category counts add up to the number of scores. */
  lemma {:induction false} BandCountsSum(zScores: seq<real>)
    ensures BandCount(zScores, ExtremeLow) + BandCount(zScores, Low) + BandCount(zScores, Normal)
          + BandCount(zScores, High) + BandCount(zScores, ExtremeHigh) == |zScores|
  {
    if zScores != [] {
      var init, z := zScores[..|zScores| - 1], zScores[|zScores| - 1];
      assert zScores == init + [z];
      BandCountsSum(init);
      FilterSnoc(y => ZBand(y) == ExtremeLow, init, z);
      FilterSnoc(y => ZBand(y) == Low, init, z);
      FilterSnoc(y => ZBand(y) == Normal, init, z);
      FilterSnoc(y => ZBand(y) == High, init, z);
      FilterSnoc(y => ZBand(y) == ExtremeHigh, init, z);
    }
  }

  /** `[p for p, z in zip(items, z_scores) if z > 2]`. */
  function ExtremeHighItems<T>(items: seq<T>, zScores: seq<real>): seq<T>
    requires |items| == |zScores|
  {
    if items == [] then []
    else
      var n := |items| - 1;
      ExtremeHighItems(items[..n], zScores[..n]) + (if zScores[n] > 2.0 then [items[n]] else [])
  }

  /** `[p for p, z in zip(items, z_scores) if z < -2]`. */
  function ExtremeLowItems<T>(items: seq<T>, zScores: seq<real>): seq<T>
    requires |items| == |zScores|
  {
    if items == [] then []
    else
      var n := |items| - 1;
      ExtremeLowItems(items[..n], zScores[..n]) + (if zScores[n] < -2.0 then [items[n]] else [])
  }

  /** The outlier lists hold exactly as many products as the extreme
      categories count. */
  lemma {:induction false} ExtremesMatchCategories<T>(items: seq<T>, zScores: seq<real>)
    requires |items| == |zScores|
    ensures |ExtremeHighItems(items, zScores)| == BandCount(zScores, ExtremeHigh)
    ensures |ExtremeLowItems(items, zScores)| == BandCount(zScores, ExtremeLow)
  {
    if items != [] {
      var n := |items| - 1;
      ExtremesMatchCategories(items[..n], zScores[..n]);
      assert zScores == zScores[..n] + [zScores[n]];
      FilterSnoc(y => ZBand(y) == ExtremeHigh, zScores[..n], zScores[n]);
      FilterSnoc(y => ZBand(y) == ExtremeLow, zScores[..n], zScores[n]);
    }
  }

  // ---------------------------------------------------------------------------
  // show_statistics
  // ---------------------------------------------------------------------------

  /** `p.get('Brand', '未知')`. */
  function BrandKey(p: Product): string
  {
    BrandOr(p, "未知")
  }

  /** The `brands` dictionary after counting the products in order. */
  function BrandTally(products: seq<Product>): map<string, nat>
  {
    if products == [] then map[]
    else
      var m := BrandTally(products[..|products| - 1]);
      var b := BrandKey(products[|products| - 1]);
      m[b := (if b in m then m[b] else 0) + 1]
  }

  /** The sum of all counts of a tally. */
  ghost function Total(m: map<string, nat>): nat
    decreases |m|
  {
    if m == map[] then 0
    else
      var k :| k in m;
      m[k] + Total(m - {k})
  }

  /** Any key may be taken out first when summing. */
  lemma {:induction false} TotalRemove(m: map<string, nat>, k: string)
    requires k in m
    ensures Total(m) == m[k] + Total(m - {k})
    decreases |m|
  {
    var j :| j in m && Total(m) == m[j] + Total(m - {j});
    if j != k {
      var mj, mk := m - {j}, m - {k};
      assert |mj| < |m| && |mk| < |m|;
      TotalRemove(mj, k);
      TotalRemove(mk, j);
      assert mj - {k} == mk - {j};
    }
  }

  /** Counting one more product under `b` raises the total by one. */
  lemma TotalIncrement(m: map<string, nat>, b: string)
    ensures Total(m[b := (if b in m then m[b] else 0) + 1]) == Total(m) + 1
  {
    var m' := m[b := (if b in m then m[b] else 0) + 1];
    TotalRemove(m', b);
    if b in m {
      TotalRemove(m, b);
      assert m' - {b} == m - {b};
    } else {
      assert m' - {b} == m;
    }
  }

  /** The brand counts add up to the number of products. */
  lemma {:induction false} BrandTallyTotal(products: seq<Product>)
    ensures Total(BrandTally(products)) == |products|
  {
    if products != [] {
      var init := products[..|products| - 1];
      BrandTallyTotal(init);
      TotalIncrement(BrandTally(init), BrandKey(products[|products| - 1]));
    }
  }

  /** Each brand's count is the number of products filed under it, a
      product without a brand being filed under '未知'; a brand is a key
      exactly when some product is filed under it. */
  lemma {:induction false} BrandTallyCounts(products: seq<Product>, b: string)
    ensures b in BrandTally(products) <==> exists p :: p in products && BrandKey(p) == b
    ensures b in BrandTally(products) ==> BrandTally(products)[b] == |Filter(p => BrandKey(p) == b, products)|
    ensures b !in BrandTally(products) ==> |Filter(p => BrandKey(p) == b, products)| == 0
  {
    if products != [] {
      var init, last := products[..|products| - 1], products[|products| - 1];
      assert products == init + [last];
      BrandTallyCounts(init, b);
      FilterSnoc(p => BrandKey(p) == b, init, last);
      assert forall p :: p in products <==> p in init || p == last;
    }
  }

  /** `[p['Price'] for p in products if p.get('Price')]`: prices present and non-zero. */
  function TruthyPrices(products: seq<Product>): seq<int>
  {
    Map(PriceOf, Filter((p: Product) => p.price.Some? && p.price.value != 0, products))
  }

  /** `[p for p in products if p.get('ratingValue')]`: ratings present and non-zero. */
  function RatedProducts(products: seq<Product>): seq<Product>
  {
    Filter((p: Product) => p.rating.Some? && p.rating.value != 0.0, products)
  }

  /** `[r for r in ratings if r >= 4.5]`. */
  function HighRatings(rated: seq<Product>): seq<Product>
  {
    Filter((p: Product) => p.rating.Some? && p.rating.value >= 4.5, rated)
  }

  /** What `show_statistics` reports, apart from its formatting. */
  datatype Statistics = Statistics(
    pricedCount: nat,
    lowestPrice: Option<int>,
    highestPrice: Option<int>,
    meanPrice: Option<real>,
    brands: map<string, nat>,
    ratedCount: nat,
    highRatedCount: nat)

  /** `show_statistics`: counts the brands in a loop and takes the price and
      rating counts from the comprehensions. */
  method ShowStatistics(products: seq<Product>) returns (stats: Statistics)
    ensures stats.brands == BrandTally(products)
    ensures Total(stats.brands) == |products|
    ensures stats.pricedCount == |TruthyPrices(products)| <= |products|
    ensures stats.highRatedCount == |HighRatings(RatedProducts(products))|
    ensures stats.ratedCount == |RatedProducts(products)|
    ensures stats.highRatedCount <= stats.ratedCount <= |products|
    ensures stats.pricedCount == 0 <==> stats.meanPrice.None?
    ensures stats.lowestPrice.None? <==> stats.meanPrice.None?
    ensures stats.highestPrice.None? <==> stats.meanPrice.None?
    ensures stats.meanPrice.Some? ==>
      var prices := TruthyPrices(products);
      |prices| > 0 && stats.lowestPrice == Some(Min(prices)) && stats.highestPrice == Some(Max(prices))
      && stats.meanPrice.value == Sum(prices) as real / |prices| as real
      && stats.lowestPrice.value as real <= stats.meanPrice.value <= stats.highestPrice.value as real
  {
    var brands: map<string, nat> := map[];
    for i := 0 to |products|
      invariant brands == BrandTally(products[..i])
    {
      assert products[..i + 1][..i] == products[..i];
      var brand := BrandOr(products[i], "未知");
      brands := brands[brand := (if brand in brands then brands[brand] else 0) + 1];
    }
    assert products[..|products|] == products;
    BrandTallyTotal(products);
    var truthy := Filter((p: Product) => p.price.Some? && p.price.value != 0, products);
    MapLength(PriceOf, truthy);
    var prices := TruthyPrices(products);
    var lowest, highest, mean := None, None, None;
    if |prices| > 0 {
      lowest, highest, mean := Some(Min(prices)), Some(Max(prices)), Some(Average(prices));
    }
    stats := Statistics(|prices|, lowest, highest, mean, brands,
                        |RatedProducts(products)|, |HighRatings(RatedProducts(products))|);
  }
}
