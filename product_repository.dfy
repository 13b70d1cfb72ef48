/** `ProductRepository`: the product and licence collections, and the one call per
    operation the services make on them. Each method is a single database
    request, so each says what the collections hold afterwards. */
module ProductStore {
  import opened Common
  import opened Inventory
  import opened ProductQuery

  /** What `paginate` answered for the rewritten query; its matching, paging and
      sorting belong to the database library and are not modelled. */
  datatype Page = Page(totalDocs: nat, docs: seq<Product>)

  datatype FoundProducts = FoundProducts(totalProductCount: nat, products: seq<Product>)

  class ProductRepository {
    var products: seq<Product>
    var licenses: seq<License>

    constructor(products: seq<Product>, licenses: seq<License>)
      ensures this.products == products && this.licenses == licenses
    {
      this.products, this.licenses := products, licenses;
    }

    /** `create(product)` */
    method Create(p: Product)
      modifies this
      ensures products == old(products) + [p] && licenses == old(licenses)
    {
      products := products + [p];
    }

    /** `findOne({ _id: id })` */
    method FindById(id: Id) returns (r: Option<Product>)
      ensures r.None? <==> forall k :: 0 <= k < |products| ==> products[k].id != id
      ensures r.Some? ==> r.value.id == id && r.value == products[ProductIndex(products, id).value]
    {
      match ProductIndex(products, id)
      case None => r := None;
      case Some(i) => r := Some(products[i]);
    }

    /** `findOne({ productName: name })` */
    method FindByName(name: string) returns (r: Option<Product>)
      ensures r.None? <==> forall k :: 0 <= k < |products| ==> products[k].productName != name
      ensures r.Some? ==> r.value in products && r.value.productName == name
    {
      match ProductNameIndex(products, name)
      case None => r := None;
      case Some(i) => r := Some(products[i]);
    }

    /** `findOne({ 'skuDetails._id': skuId })` */
    method FindBySku(skuId: Id) returns (r: Option<Product>)
      ensures r.None? <==> forall k :: 0 <= k < |products| ==> !HasSku(products[k], skuId)
      ensures r.Some? ==> HasSku(r.value, skuId) && r.value == products[OwnerIndex(products, skuId).value]
    {
      match OwnerIndex(products, skuId)
      case None => r := None;
      case Some(i) => r := Some(products[i]);
    }

    /** `findOneAndUpdate({ 'skuDetails._id': skuId }, { $set: { 'skuDetails.$.stock': v } })` */
    method SetStock(skuId: Id, v: int)
      modifies this
      ensures products == SetSkuStock(old(products), skuId, v) && licenses == old(licenses)
    {
      products := SetSkuStock(products, skuId, v);
    }

    /** `findOneAndUpdate({ _id: productId, 'skuDetails._id': skuId }, { $set: dataForUpdate })` */
    method SetSku(productId: Id, skuId: Id, doc: map<string, FieldValue>) returns (r: Option<Product>)
      modifies this
      ensures products == SetSkuFields(old(products), productId, skuId, doc) && licenses == old(licenses)
      ensures r.Some? <==> ProductSkuIndex(old(products), productId, skuId).Some?
      ensures r.Some? ==> r.value == products[ProductSkuIndex(old(products), productId, skuId).value]
    {
      var i := ProductSkuIndex(products, productId, skuId);
      products := SetSkuFields(products, productId, skuId, doc);
      r := if i.Some? then Some(products[i.value]) else None;
    }

    /** `findOneAndUpdate({ _id: productId }, { $push: { skuDetails: skus } })`; the
        array is appended element by element, as Mongoose casts a pushed array. */
    method PushSkus(productId: Id, skus: seq<Sku>) returns (r: Option<Product>)
      modifies this
      ensures licenses == old(licenses) && |products| == |old(products)|
      ensures ProductIndex(old(products), productId).None? ==> r.None? && products == old(products)
      ensures ProductIndex(old(products), productId).Some? ==>
        var i := ProductIndex(old(products), productId).value;
        && products == old(products)[i := old(products)[i].(skuDetails := old(products)[i].skuDetails + skus)]
        && r == Some(products[i])
    {
      match ProductIndex(products, productId)
      case None => r := None;
      case Some(i) =>
        products := products[i := products[i].(skuDetails := products[i].skuDetails + skus)];
        r := Some(products[i]);
    }

    /** `findOneAndUpdate({ _id: productId }, { $set: { avgRating }, $push: { feedbackDetails: fb } })` */
    method PushReview(productId: Id, avg: AvgRating, fb: Feedback)
      modifies this
      ensures licenses == old(licenses)
      ensures ProductIndex(old(products), productId).None? ==> products == old(products)
      ensures ProductIndex(old(products), productId).Some? ==>
        var i := ProductIndex(old(products), productId).value;
        products == old(products)[i := old(products)[i].(avgRating := avg, feedbackDetails := old(products)[i].feedbackDetails + [fb])]
    {
      match ProductIndex(products, productId)
      case None =>
      case Some(i) =>
        products := products[i := products[i].(avgRating := avg, feedbackDetails := products[i].feedbackDetails + [fb])];
    }

    /** `findOneAndUpdate({ _id: productId }, { $set: { avgRating }, $pull: { feedbackDetails: { _id: reviewId } } })` */
    method PullReview(productId: Id, avg: AvgRating, reviewId: Id)
      modifies this
      ensures licenses == old(licenses)
      ensures ProductIndex(old(products), productId).None? ==> products == old(products)
      ensures ProductIndex(old(products), productId).Some? ==>
        var i := ProductIndex(old(products), productId).value;
        products == old(products)[i := old(products)[i].(avgRating := avg,
          feedbackDetails := FeedbackWithout(old(products)[i].feedbackDetails, reviewId))]
    {
      match ProductIndex(products, productId)
      case None =>
      case Some(i) =>
        products := products[i := products[i].(avgRating := avg,
          feedbackDetails := FeedbackWithout(products[i].feedbackDetails, reviewId))];
    }

    /** `deleteSku(id, skuId)` */
    method DeleteSku(productId: Id, skuId: Id)
      modifies this
      ensures products == Inventory.DeleteSku(old(products), productId, skuId) && licenses == old(licenses)
    {
      products := Inventory.DeleteSku(products, productId, skuId);
    }

    /** `find(query, options)`: rewrites the caller's query and sort objects in
        place, then pages through the products. `searchCompiles` is the `RegExp`
        constructor's verdict on the search text. */
    method Find(query: ProductFilter, options: PaginateOptions, page: Page, searchCompiles: bool) returns (r: Result<FoundProducts>)
      modifies query, options
      ensures var rw := RewriteFind(FindState(old(query.fields), old(options.sort)), searchCompiles);
        && query.fields == rw.state.filter && options.sort == rw.state.sort
        && (rw.failure.Some? ==> r == Err(rw.failure.value))
        && (rw.failure.None? ==> r == Ok(FoundProducts(page.totalDocs, page.docs)))
      ensures options.page == old(options.page) && options.limit == old(options.limit)
    {
      if Present(query.fields, "search") {
        if !searchCompiles {
          return Err(InternalServerError);
        }
        query.fields := query.fields["productName" := Pattern(SourceOf(query.fields["search"]))];
        query.fields := query.fields - {"search"};
      }
      ghost var afterSearch := FindState(query.fields, options.sort);
      assert SearchStep(FindState(old(query.fields), old(options.sort)), searchCompiles).Ok?;
      assert afterSearch == SearchStep(FindState(old(query.fields), old(options.sort)), searchCompiles).value;

      if Present(query.fields, "avgRating") {
        var order := SortOrder(query.fields["avgRating"]);
        if order.None? {
          return Err(BadRequest);
        }
        options.sort := options.sort["avgRating" := order.value];
        query.fields := query.fields - {"avgRating"};
      }
      assert SortStep(afterSearch, "avgRating") == Ok(FindState(query.fields, options.sort));

      if Present(query.fields, "createdAt") {
        var order := SortOrder(query.fields["createdAt"]);
        if order.None? {
          return Err(BadRequest);
        }
        options.sort := options.sort["createdAt" := order.value];
        query.fields := query.fields - {"createdAt"};
      }
      r := Ok(FoundProducts(page.totalDocs, page.docs));
    }

    /** `createLicense(productId, skuId, licenseKey)`: a new, unsold licence. */
    method CreateLicense(productId: Id, skuId: Id, licenseKey: string, newId: Id) returns (l: License)
      modifies this
      ensures l == License(newId, productId, skuId, licenseKey, false, None)
      ensures licenses == old(licenses) + [l] && products == old(products)
    {
      l := License(newId, productId, skuId, licenseKey, false, None);
      licenses := licenses + [l];
    }

    /** `removeLicense({ _id: id })`, a `findOneAndDelete`. */
    method RemoveLicense(id: Id) returns (r: Option<License>)
      modifies this
      ensures products == old(products)
      ensures LicenseIndex(old(licenses), id).None? ==> r.None? && licenses == old(licenses)
      ensures LicenseIndex(old(licenses), id).Some? ==>
        var i := LicenseIndex(old(licenses), id).value;
        r == Some(old(licenses)[i]) && licenses == RemoveAt(old(licenses), i)
    {
      match LicenseIndex(licenses, id)
      case None => r := None;
      case Some(i) =>
        r := Some(licenses[i]);
        licenses := RemoveAt(licenses, i);
    }

    /** `findLicense(query, limit)` */
    method FindLicense(q: LicenseQuery, limit: Option<int>) returns (r: seq<License>)
      ensures r == Inventory.FindLicense(licenses, q, limit)
    {
      r := Inventory.FindLicense(licenses, q, limit);
    }

    /** `updateLicense({ _id: id }, { licenseKey })`, a `findOneAndUpdate`. */
    method UpdateLicense(id: Id, licenseKey: string) returns (r: Option<License>)
      modifies this
      ensures products == old(products)
      ensures LicenseIndex(old(licenses), id).None? ==> r.None? && licenses == old(licenses)
      ensures LicenseIndex(old(licenses), id).Some? ==>
        var i := LicenseIndex(old(licenses), id).value;
        && licenses == old(licenses)[i := old(licenses)[i].(licenseKey := licenseKey)]
        && r == Some(licenses[i])
    {
      match LicenseIndex(licenses, id)
      case None => r := None;
      case Some(i) =>
        licenses := licenses[i := licenses[i].(licenseKey := licenseKey)];
        r := Some(licenses[i]);
    }

    /** `updateLicenseMany({ _id: { $in: ids } }, { $set: ... })` */
    method UpdateLicenseMany(ids: set<Id>, u: LicenseUpdate)
      modifies this
      ensures licenses == Inventory.UpdateLicenseMany(old(licenses), ids, u) && products == old(products)
    {
      licenses := Inventory.UpdateLicenseMany(licenses, ids, u);
    }

    /** `deleteAllLicences(productId, skuId)` */
    method DeleteAllLicences(productId: Option<Id>, skuId: Id)
      modifies this
      ensures licenses == Inventory.DeleteAllLicences(old(licenses), productId, skuId) && products == old(products)
    {
      licenses := Inventory.DeleteAllLicences(licenses, productId, skuId);
    }
  }
}
