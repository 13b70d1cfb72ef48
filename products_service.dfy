/** `ProductsService`: the catalog endpoints over the product repository and the
    order repository. Each method is proved to leave the stores in the state, and
    to answer with the value, that the functions of `Catalog` describe. */
module ProductsServices {
  import opened Common
  import opened Inventory
  import opened OrderStore
  import opened ProductQuery
  import opened ProductStore
  import opened Catalog

  class ProductsService {
    const productDb: ProductRepository
    const orderDb: OrdersRepository

    constructor(productDb: ProductRepository, orderDb: OrdersRepository)
      ensures this.productDb == productDb && this.orderDb == orderDb
    {
      this.productDb := productDb;
      this.orderDb := orderDb;
    }

    /** `createProduct(dto)`: `createdStripeId` is the id of the provider product
        created for a product that names none. */
    method CreateProduct(p: Product, createdStripeId: Id) returns (r: Result<Product>)
      modifies productDb
      ensures productDb.licenses == old(productDb.licenses)
      ensures var c := Catalog.CreateProduct(old(productDb.products), p, createdStripeId);
        && (c.Err? ==> r == Err(c.error) && productDb.products == old(productDb.products))
        && (c.Ok? ==> productDb.products == c.value && r == Ok(c.value[|c.value| - 1]))
    {
      var stored := p;
      if p.stripeProductId == "" {
        stored := p.(stripeProductId := createdStripeId);
      }
      var existing := productDb.FindByName(p.productName);
      if existing.Some? {
        return Err(Conflict);
      }
      productDb.Create(stored);
      r := Ok(stored);
    }

    /** `findAllProducts(query)`: `page` and `limit` are the query's numbers,
        `sort` its sort object, `found` what `paginate` answers for the rewritten
        query, `homeGroups` what the home-page aggregation answers, and
        `searchCompiles` the `RegExp` constructor's verdict on the search text.
        `homePage` is removed from the query whether or not it is truthy. */
    method FindAllProducts(query: ProductFilter, page: Option<int>, limit: Option<int>, sort: Option<map<string, int>>,
                           found: Page, homeGroups: seq<HomeGroups>, searchCompiles: bool) returns (r: Result<ProductsAnswer>)
      modifies query
      ensures var base := old(query.fields) - {"homePage"};
        var rw := RewriteFind(FindState(base, if sort.Some? then sort.value else map["_id" := 1]), searchCompiles);
        var listed := ListProducts(page, limit, found.totalDocs, found.docs);
        && (Present(old(query.fields), "homePage") ==> query.fields == base && r == HomeProducts(homeGroups))
        && (!Present(old(query.fields), "homePage") ==>
              && query.fields == rw.state.filter
              && (rw.failure.Some? ==> r == Err(rw.failure.value))
              && (rw.failure.None? && listed.Err? ==> r == Err(listed.error))
              && (rw.failure.None? && listed.Ok? ==> r == Ok(Paged(listed.value))))
    {
      var callForHomePage := Present(query.fields, "homePage");
      query.fields := query.fields - {"homePage"};
      var options := new PaginateOptions(OrDefault(page, 1), OrDefault(limit, 12),
                                         if sort.Some? then sort.value else map["_id" := 1]);
      if callForHomePage {
        if |homeGroups| == 0 {
          return Err(NotFound);
        }
        return Ok(HomePage(homeGroups));
      }
      var res := productDb.Find(query, options, found, searchCompiles);
      if res.Err? {
        return Err(res.error);
      }
      if |res.value.products| == 0 {
        return Err(NotFound);
      }
      var m := Metadata((options.page - 1) * options.limit, options.limit, res.value.totalProductCount,
                        CeilDiv(res.value.totalProductCount, options.limit));
      r := Ok(Paged(Listing(m, res.value.products)));
    }

    /** `updateProductSku(productId, data)`: the SKUs of the body are prepared in
        place, one after another, then pushed. `codes[k]` is the code generated
        for the k-th SKU and `priceIds[k]` the id of the price the provider
        creates for it. */
    method UpdateProductSku(productId: Id, skus: array<Sku>, codes: seq<string>, priceIds: seq<Id>) returns (r: Result<()>)
      requires |codes| == skus.Length && |priceIds| == skus.Length
      modifies productDb, skus
      ensures productDb.licenses == old(productDb.licenses)
      ensures var u := UpdateSkus(old(productDb.products), productId, old(skus[..]), codes, priceIds);
        && (u.Err? ==> r == Err(u.error) && productDb.products == old(productDb.products))
        && (u.Ok? ==>
              && r == Ok(()) && productDb.products == u.value
              && skus[..] == seq(skus.Length, k requires 0 <= k < skus.Length => PreparedSku(old(skus[k]), codes[k], priceIds[k])))
    {
      var product := productDb.FindById(productId);
      if product.None? {
        return Err(NotFound);
      }
      var i := 0;
      while i < skus.Length
        invariant 0 <= i <= skus.Length
        invariant productDb.products == old(productDb.products) && productDb.licenses == old(productDb.licenses)
        invariant forall k :: 0 <= k < i ==> PriceAvailable(old(skus[k]), priceIds[k])
        invariant forall k :: 0 <= k < i ==> skus[k] == PreparedSku(old(skus[k]), codes[k], priceIds[k])
        invariant forall k :: i <= k < skus.Length ==> skus[k] == old(skus[k])
      {
        skus[i] := skus[i].(skuCode := Some(codes[i]));
        if skus[i].stripePriceId == "" {
          if priceIds[i] == "" {
            assert !PriceAvailable(old(skus[i]), priceIds[i]);
            return Err(InternalServerError);
          }
          skus[i] := skus[i].(stripePriceId := priceIds[i]);
        }
        i := i + 1;
      }
      ghost var given := old(skus[..]);
      ghost var prepared := seq(skus.Length, k requires 0 <= k < skus.Length => PreparedSku(given[k], codes[k], priceIds[k]));
      assert skus[..] == prepared;
      assert !exists k :: 0 <= k < |given| && !PriceAvailable(given[k], priceIds[k]);
      assert UpdateSkus(productDb.products, productId, given, codes, priceIds)
        == Ok(productDb.products[ProductIndex(productDb.products, productId).value := product.value.(skuDetails := product.value.skuDetails + prepared)]);
      var _ := productDb.PushSkus(productId, skus[..]);
      r := Ok(());
    }

    /** `updateProductSkuById(productId, skuId, data)`: `newPriceId` is the id of
        the price the provider creates when the price changes. */
    method UpdateProductSkuById(productId: Id, skuId: Id, data: Entries, newPriceId: Id) returns (r: Result<()>)
      modifies productDb
      ensures productDb.licenses == old(productDb.licenses)
      ensures var u := UpdateSkuById(old(productDb.products), productId, skuId, data, newPriceId);
        && (u.Err? ==> r == Err(u.error) && productDb.products == old(productDb.products))
        && (u.Ok? ==> r == Ok(()) && productDb.products == u.value)
    {
      var product := productDb.FindById(productId);
      if product.None? {
        return Err(NotFound);
      }
      var j := SkuIndex(product.value, skuId);
      if j.None? {
        return Err(NotFound);
      }
      var body := data;
      if PriceChanged(data, product.value.skuDetails[j.value]) {
        body := SetEntry(data, "stripePriceId", StrValue(newPriceId));
      }
      var _ := productDb.SetSku(productId, skuId, UpdateDoc(body));
      r := Ok(());
    }

    /** The product and SKU checks shared by the licence endpoints. */
    method CheckSku(productId: Id, skuId: Id) returns (r: Result<()>)
      ensures r == SkuCheck(productDb.products, productId, skuId)
    {
      var product := productDb.FindById(productId);
      if product.None? {
        return Err(NotFound);
      }
      if SkuIndex(product.value, skuId).None? {
        return Err(NotFound);
      }
      r := Ok(());
    }

    /** `addProductSkuLicense(productId, skuId, licenseKey)`: `newId` is the id the
        database gives the licence. */
    method AddProductSkuLicense(productId: Id, skuId: Id, licenseKey: string, newId: Id) returns (r: Result<License>)
      modifies productDb
      ensures productDb.products == old(productDb.products)
      ensures var a := AddLicense(old(productDb.products), old(productDb.licenses), productId, skuId, licenseKey, newId);
        && (a.Err? ==> r == Err(a.error) && productDb.licenses == old(productDb.licenses))
        && (a.Ok? ==> productDb.licenses == a.value && r == Ok(a.value[|a.value| - 1]))
    {
      var check := CheckSku(productId, skuId);
      if check.Err? {
        return Err(NotFound);
      }
      if licenseKey == "" {
        return Err(BadRequest);
      }
      var l := productDb.CreateLicense(productId, skuId, licenseKey, newId);
      r := Ok(l);
    }

    /** `removeProductSkuLicense(id)` */
    method RemoveProductSkuLicense(id: Id) returns (r: Result<License>)
      modifies productDb
      ensures productDb.products == old(productDb.products)
      ensures var d := RemoveLicenseById(old(productDb.licenses), id);
        && (d.Err? ==> r == Err(d.error) && productDb.licenses == old(productDb.licenses))
        && (d.Ok? ==> productDb.licenses == d.value && r.Ok? && r.value.id == id)
    {
      var removed := productDb.RemoveLicense(id);
      if removed.None? {
        return Err(NotFound);
      }
      r := Ok(removed.value);
    }

    /** `getProductSkuLicenses(productId, skuId)` */
    method GetProductSkuLicenses(productId: Id, skuId: Id) returns (r: Result<seq<License>>)
      ensures r == ListLicenses(productDb.products, productDb.licenses, productId, skuId)
    {
      var check := CheckSku(productId, skuId);
      if check.Err? {
        return Err(NotFound);
      }
      var found := productDb.FindLicense(OfProductSku(productId, skuId), None);
      r := Ok(found);
    }

    /** `updateProductSkuLicense(productId, skuId, licenseKeyId, licenseKey)`, with
        the existence check made on the number of licences found (see
        `Catalog.UpdateLicenseKeyAsWritten` for the check as written). */
    method UpdateProductSkuLicense(productId: Id, skuId: Id, id: Id, licenseKey: string) returns (r: Result<License>)
      modifies productDb
      ensures productDb.products == old(productDb.products)
      ensures var u := UpdateLicenseKey(old(productDb.products), old(productDb.licenses), productId, skuId, id, licenseKey);
        && (u.Err? ==> r == Err(u.error) && productDb.licenses == old(productDb.licenses))
        && (u.Ok? ==> productDb.licenses == u.value && r.Ok? && r.value.id == id && r.value.licenseKey == licenseKey)
    {
      var check := CheckSku(productId, skuId);
      if check.Err? {
        return Err(NotFound);
      }
      if licenseKey == "" {
        return Err(BadRequest);
      }
      var license := productDb.FindLicense(WithId(id), None);
      MatchingEmpty(productDb.licenses, WithId(id));
      if |license| == 0 {
        return Err(NotFound);
      }
      var updated := productDb.UpdateLicense(id, licenseKey);
      r := Ok(updated.value);
    }

    /** The ratings of a product's reviews, collected one by one. */
    method CollectRatings(fb: seq<Feedback>) returns (ratings: seq<int>)
      ensures ratings == Ratings(fb)
    {
      ratings := [];
      var k := 0;
      while k < |fb|
        invariant 0 <= k <= |fb|
        invariant ratings == Ratings(fb[..k])
      {
        ratings := ratings + [fb[k].rating];
        k := k + 1;
      }
      assert fb[..k] == fb;
    }

    /** The ratings of every review but `reviewId`, collected one by one. */
    method CollectOtherRatings(fb: seq<Feedback>, reviewId: Id) returns (ratings: seq<int>)
      ensures ratings == Ratings(FeedbackWithout(fb, reviewId))
    {
      ratings := [];
      var k := 0;
      while k < |fb|
        invariant 0 <= k <= |fb|
        invariant ratings == Ratings(FeedbackWithout(fb[..k], reviewId))
      {
        assert fb[..k + 1][..k] == fb[..k];
        if fb[k].id != reviewId {
          assert Ratings(FeedbackWithout(fb[..k], reviewId) + [fb[k]]) == ratings + [fb[k].rating];
          ratings := ratings + [fb[k].rating];
        }
        k := k + 1;
      }
      assert fb[..k] == fb;
    }

    /** `addProductReview(productId, reviewData, user)`, with the new rating
        counted in the average (see `Catalog.NewAverageAsWritten` for the average
        as written). `review` carries the id the database gives it. */
    method AddProductReview(productId: Id, userId: Id, review: Feedback) returns (r: Result<()>)
      requires review.customerId == userId
      modifies productDb
      ensures productDb.licenses == old(productDb.licenses)
      ensures var a := AddReview(old(productDb.products), orderDb.orders, productId, userId, review);
        && (a.Err? ==> r == Err(a.error) && productDb.products == old(productDb.products))
        && (a.Ok? ==> r == Ok(()) && productDb.products == a.value)
    {
      var product := productDb.FindById(productId);
      if product.None? {
        return Err(NotFound);
      }
      if HasReviewBy(product.value, userId) {
        return Err(BadRequest);
      }
      var order := orderDb.FindPurchase(userId, productId);
      if order.None? {
        return Err(BadRequest);
      }
      var ratings := CollectRatings(product.value.feedbackDetails);
      var avgRating := RatingText(review.rating);
      if |ratings| > 0 {
        avgRating := MeanOf(ratings + [review.rating]);
      }
      productDb.PushReview(productId, avgRating, review);
      r := Ok(());
    }

    /** `removeProductReview(productId, reviewId)`: the ratings of the other
        reviews are collected one by one. */
    method RemoveProductReview(productId: Id, reviewId: Id) returns (r: Result<()>)
      modifies productDb
      ensures productDb.licenses == old(productDb.licenses)
      ensures var d := RemoveReview(old(productDb.products), productId, reviewId);
        && (d.Err? ==> r == Err(d.error) && productDb.products == old(productDb.products))
        && (d.Ok? ==> r == Ok(()) && productDb.products == d.value)
    {
      var product := productDb.FindById(productId);
      if product.None? {
        return Err(NotFound);
      }
      if !HasReview(product.value, reviewId) {
        return Err(NotFound);
      }
      var ratings := CollectOtherRatings(product.value.feedbackDetails, reviewId);
      var avgRating := ZeroText;
      if |ratings| > 0 {
        avgRating := MeanOf(ratings);
      }
      productDb.PullReview(productId, avgRating, reviewId);
      r := Ok(());
    }
  }
}
