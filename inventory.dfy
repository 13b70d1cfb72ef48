/** The inventory store behind `ProductRepository`: products with their embedded
    SKUs and reviews, and the licence collection. Collections are sequences in
    Mongo's natural order, so "the first document that matches" is defined the way
    `findOne`, the positional `$` operator and `.limit` see it. */
module Inventory {
  import opened Common

  datatype Sku = Sku(
    id: Id,
    skuName: string,
    price: int,
    validity: int,
    lifetime: bool,
    stripePriceId: string,
    skuCode: Option<string>,
    stock: int)

  datatype Feedback = Feedback(id: Id, customerId: Id, customerName: string, rating: int, feedbackMsg: string)

  /** The `avgRating` a product carries: never written, the text "0", the text of
      a single rating (`String(rating)`), or the mean of a list of ratings as
      `toFixed(2)` prints it (the floating-point text itself is not modelled). */
  datatype AvgRating = Unrated | ZeroText | RatingText(rating: int) | MeanOf(ratings: seq<int>)

  datatype Product = Product(
    id: Id,
    productName: string,
    stripeProductId: string,
    skuDetails: seq<Sku>,
    feedbackDetails: seq<Feedback>,
    avgRating: AvgRating)

  datatype License = License(
    id: Id,
    product: Id,
    productSku: Id,
    licenseKey: string,
    isSold: bool,
    orderId: Option<Id>)

  // ---------------------------------------------------------------- lookups

  predicate HasSku(p: Product, skuId: Id) {
    exists j :: 0 <= j < |p.skuDetails| && p.skuDetails[j].id == skuId
  }

  /** `findOne({ _id: id })` */
  function ProductIndex(ps: seq<Product>, id: Id): (r: Option<nat>)
    ensures r.Some? ==> r.value < |ps| && ps[r.value].id == id
    ensures r.Some? ==> forall k :: 0 <= k < r.value ==> ps[k].id != id
    ensures r.None? ==> forall k :: 0 <= k < |ps| ==> ps[k].id != id
  {
    FirstIndex(ps, (p: Product) => p.id == id)
  }

  /** `findOne({ productName: name })` */
  function ProductNameIndex(ps: seq<Product>, name: string): (r: Option<nat>)
    ensures r.Some? ==> r.value < |ps| && ps[r.value].productName == name
    ensures r.None? ==> forall k :: 0 <= k < |ps| ==> ps[k].productName != name
  {
    FirstIndex(ps, (p: Product) => p.productName == name)
  }

  /** `findOne({ 'skuDetails._id': skuId })`: the first product embedding that SKU. */
  function OwnerIndex(ps: seq<Product>, skuId: Id): (r: Option<nat>)
    ensures r.Some? ==> r.value < |ps| && HasSku(ps[r.value], skuId)
    ensures r.Some? ==> forall k :: 0 <= k < r.value ==> !HasSku(ps[k], skuId)
    ensures r.None? ==> forall k :: 0 <= k < |ps| ==> !HasSku(ps[k], skuId)
  {
    FirstIndex(ps, (p: Product) => HasSku(p, skuId))
  }

  /** `product.skuDetails.find(s => s._id == skuId)`, also the element the
      positional `$` selects for a `'skuDetails._id': skuId` filter. */
  function SkuIndex(p: Product, skuId: Id): (r: Option<nat>)
    ensures r.Some? ==> r.value < |p.skuDetails| && p.skuDetails[r.value].id == skuId
    ensures r.Some? ==> forall k :: 0 <= k < r.value ==> p.skuDetails[k].id != skuId
    ensures r.None? <==> !HasSku(p, skuId)
  {
    FirstIndex(p.skuDetails, (s: Sku) => s.id == skuId)
  }

  /** `product.skuDetails.find(sku => sku.skuCode === code)` */
  function SkuCodeIndex(p: Product, code: string): (r: Option<nat>)
    ensures r.Some? ==> r.value < |p.skuDetails| && p.skuDetails[r.value].skuCode == Some(code)
    ensures r.None? ==> forall k :: 0 <= k < |p.skuDetails| ==> p.skuDetails[k].skuCode != Some(code)
  {
    FirstIndex(p.skuDetails, (s: Sku) => s.skuCode == Some(code))
  }

  /** The stock the store reports for a SKU id: that of the SKU the positional
      `$` reaches in the first product embedding it. */
  function StockOf(ps: seq<Product>, skuId: Id): Option<int>
  {
    match OwnerIndex(ps, skuId)
    case None => None
    case Some(i) =>
      match SkuIndex(ps[i], skuId)
      case None => None
      case Some(j) => Some(ps[i].skuDetails[j].stock)
  }

  // ------------------------------------------------------------ SKU writes

  /** `findOneAndUpdate({ 'skuDetails._id': skuId }, { $set: { 'skuDetails.$.stock': v } })` */
  function SetSkuStock(ps: seq<Product>, skuId: Id, v: int): (r: seq<Product>)
    ensures |r| == |ps|
    ensures forall k {:trigger r[k]} :: 0 <= k < |ps| && OwnerIndex(ps, skuId) != Some(k) ==> r[k] == ps[k]
    ensures OwnerIndex(ps, skuId).Some? ==>
      var i := OwnerIndex(ps, skuId).value;
      var j := SkuIndex(ps[i], skuId).value;
      r[i] == ps[i].(skuDetails := ps[i].skuDetails[j := ps[i].skuDetails[j].(stock := v)])
  {
    match OwnerIndex(ps, skuId)
    case None => ps
    case Some(i) =>
      var j := SkuIndex(ps[i], skuId).value;
      ps[i := ps[i].(skuDetails := ps[i].skuDetails[j := ps[i].skuDetails[j].(stock := v)])]
  }

  /** After the write the store reports the written stock for the SKU: the
      positional `$` reaches the same SKU of the same product again. */
  lemma SetSkuStockReports(ps: seq<Product>, skuId: Id, v: int)
    requires OwnerIndex(ps, skuId).Some?
    ensures StockOf(SetSkuStock(ps, skuId, v), skuId) == Some(v)
  {
    var i := OwnerIndex(ps, skuId).value;
    var j := SkuIndex(ps[i], skuId).value;
    var r := SetSkuStock(ps, skuId, v);
    var skus := r[i].skuDetails;
    assert forall k :: 0 <= k < i ==> r[k] == ps[k];
    assert skus[j].id == skuId;
    assert HasSku(r[i], skuId);
    assert OwnerIndex(r, skuId) == Some(i);
    assert SkuIndex(r[i], skuId) == Some(j) by {
      assert forall k :: 0 <= k < j ==> skus[k] == ps[i].skuDetails[k];
      var j' := SkuIndex(r[i], skuId).value;
      assert !(j' < j);
    }
  }

  /** Two products that differ at most in the stock of their SKUs. */
  predicate SameButStock(p: Product, q: Product) {
    && p.(skuDetails := q.skuDetails) == q
    && |p.skuDetails| == |q.skuDetails|
    && forall m :: 0 <= m < |p.skuDetails| ==> p.skuDetails[m].(stock := q.skuDetails[m].stock) == q.skuDetails[m]
  }

  /** Two catalogs that differ at most in SKU stock, product by product. */
  predicate SameButStocks(ps: seq<Product>, qs: seq<Product>) {
    |ps| == |qs| && forall k :: 0 <= k < |ps| ==> SameButStock(ps[k], qs[k])
  }

  lemma SameButStocksTrans(ps: seq<Product>, qs: seq<Product>, ts: seq<Product>)
    requires SameButStocks(ps, qs) && SameButStocks(qs, ts)
    ensures SameButStocks(ps, ts)
  {
    forall k | 0 <= k < |ps|
      ensures SameButStock(ps[k], ts[k])
    {
      assert SameButStock(ps[k], qs[k]) && SameButStock(qs[k], ts[k]);
    }
  }

  /** A stock write changes nothing but a stock. */
  lemma SetSkuStockKeepsCatalog(ps: seq<Product>, skuId: Id, v: int)
    ensures SameButStocks(ps, SetSkuStock(ps, skuId, v))
  {
    var r := SetSkuStock(ps, skuId, v);
    forall k | 0 <= k < |ps|
      ensures SameButStock(ps[k], r[k])
    {
      if OwnerIndex(ps, skuId) == Some(k) {
        var j := SkuIndex(ps[k], skuId).value;
        assert r[k].skuDetails == ps[k].skuDetails[j := ps[k].skuDetails[j].(stock := v)];
      }
    }
  }

  /** Lookups by product id and by SKU code see the same positions in two
      catalogs that differ in stock only. */
  lemma SameButStocksLookups(ps: seq<Product>, qs: seq<Product>, productId: Id, code: string)
    requires SameButStocks(ps, qs)
    ensures ProductIndex(ps, productId) == ProductIndex(qs, productId)
    ensures ProductIndex(ps, productId).Some? ==>
      var i := ProductIndex(ps, productId).value;
      SkuCodeIndex(ps[i], code) == SkuCodeIndex(qs[i], code)
  {
    FirstIndexAgree(ps, (p: Product) => p.id == productId, qs, (p: Product) => p.id == productId);
    if ProductIndex(ps, productId).Some? {
      var i := ProductIndex(ps, productId).value;
      assert SameButStock(ps[i], qs[i]);
      FirstIndexAgree(ps[i].skuDetails, (s: Sku) => s.skuCode == Some(code),
                      qs[i].skuDetails, (s: Sku) => s.skuCode == Some(code));
    }
  }

  /** `updateOne({ _id: productId }, { $pull: { skuDetails: { _id: skuId } } })` */
  function DeleteSku(ps: seq<Product>, productId: Id, skuId: Id): (r: seq<Product>)
    ensures |r| == |ps|
    ensures forall k :: 0 <= k < |ps| && ProductIndex(ps, productId) != Some(k) ==> r[k] == ps[k]
    ensures ProductIndex(ps, productId).Some? ==>
      var i := ProductIndex(ps, productId).value;
      && r[i] == ps[i].(skuDetails := SkusWithout(ps[i].skuDetails, skuId))
      && !HasSku(r[i], skuId)
      && (forall s :: s in r[i].skuDetails ==> s in ps[i].skuDetails)
      && (forall s :: s in ps[i].skuDetails && s.id != skuId ==> s in r[i].skuDetails)
  {
    match ProductIndex(ps, productId)
    case None => ps
    case Some(i) => ps[i := ps[i].(skuDetails := SkusWithout(ps[i].skuDetails, skuId))]
  }

  /** The SKU list with every entry of the given id pulled out, order kept. */
  function SkusWithout(skus: seq<Sku>, skuId: Id): (r: seq<Sku>)
    ensures |r| <= |skus|
    ensures forall k :: 0 <= k < |r| ==> r[k].id != skuId && r[k] in skus
    ensures forall s :: s in skus && s.id != skuId ==> s in r
    ensures (forall k :: 0 <= k < |skus| ==> skus[k].id != skuId) ==> r == skus
    ensures r == Filter(skus, (s: Sku) => s.id != skuId)
  {
    if |skus| == 0 then []
    else if skus[0].id == skuId then SkusWithout(skus[1..], skuId)
    else [skus[0]] + SkusWithout(skus[1..], skuId)
  }

  /** A value in a `$set` document. */
  datatype FieldValue = StrValue(s: string) | NumValue(n: int) | BoolValue(b: bool)

  function StrAt(doc: map<string, FieldValue>, path: string, dflt: string): string {
    if path in doc && doc[path].StrValue? then doc[path].s else dflt
  }

  function NumAt(doc: map<string, FieldValue>, path: string, dflt: int): int {
    if path in doc && doc[path].NumValue? then doc[path].n else dflt
  }

  function BoolAt(doc: map<string, FieldValue>, path: string, dflt: bool): bool {
    if path in doc && doc[path].BoolValue? then doc[path].b else dflt
  }

  const SkuPathPrefix := "skuDetails.$."

  /** The positional path of a SKU field, `skuDetails.$.<field>`. */
  function SkuPath(key: string): (p: string)
    ensures |p| == |SkuPathPrefix| + |key| && p[|SkuPathPrefix|..] == key
  {
    SkuPathPrefix + key
  }

  /** The SKU the positional `$` reaches after a `$set` of `skuDetails.$.<field>`
      paths; paths naming no field of the SKU schema are dropped, as a strict
      schema drops them. */
  function ApplySkuSet(s: Sku, doc: map<string, FieldValue>): Sku {
    Sku(
      s.id,
      StrAt(doc, SkuPath("skuName"), s.skuName),
      NumAt(doc, SkuPath("price"), s.price),
      NumAt(doc, SkuPath("validity"), s.validity),
      BoolAt(doc, SkuPath("lifetime"), s.lifetime),
      StrAt(doc, SkuPath("stripePriceId"), s.stripePriceId),
      if SkuPath("skuCode") in doc && doc[SkuPath("skuCode")].StrValue?
      then Some(doc[SkuPath("skuCode")].s) else s.skuCode,
      NumAt(doc, SkuPath("stock"), s.stock))
  }

  /** The filter `{ _id: productId, 'skuDetails._id': skuId }`. */
  function ProductSkuIndex(ps: seq<Product>, productId: Id, skuId: Id): (r: Option<nat>)
    ensures r.Some? ==> r.value < |ps| && ps[r.value].id == productId && HasSku(ps[r.value], skuId)
    ensures r.None? ==> forall k :: 0 <= k < |ps| ==> !(ps[k].id == productId && HasSku(ps[k], skuId))
  {
    FirstIndex(ps, (p: Product) => p.id == productId && HasSku(p, skuId))
  }

  /** `findOneAndUpdate({ _id: productId, 'skuDetails._id': skuId }, { $set: dataForUpdate })` */
  function SetSkuFields(ps: seq<Product>, productId: Id, skuId: Id, doc: map<string, FieldValue>): (r: seq<Product>)
    ensures |r| == |ps|
    ensures forall k :: 0 <= k < |ps| && ProductSkuIndex(ps, productId, skuId) != Some(k) ==> r[k] == ps[k]
  {
    match ProductSkuIndex(ps, productId, skuId)
    case None => ps
    case Some(i) =>
      var j := SkuIndex(ps[i], skuId).value;
      ps[i := ps[i].(skuDetails := ps[i].skuDetails[j := ApplySkuSet(ps[i].skuDetails[j], doc)])]
  }

  /** The review list with every review of the given id pulled out, order kept
      (`$pull: { feedbackDetails: { _id: reviewId } }`). */
  function FeedbackWithout(fb: seq<Feedback>, reviewId: Id): (r: seq<Feedback>)
    ensures |r| <= |fb|
    ensures forall k :: 0 <= k < |r| ==> r[k].id != reviewId && r[k] in fb
    ensures forall k :: 0 <= k < |fb| && fb[k].id != reviewId ==> fb[k] in r
  {
    if |fb| == 0 then []
    else
      var init := FeedbackWithout(fb[..|fb| - 1], reviewId);
      assert forall k :: 0 <= k < |fb| - 1 ==> fb[..|fb| - 1][k] == fb[k];
      if fb[|fb| - 1].id == reviewId then init else init + [fb[|fb| - 1]]
  }

  // --------------------------------------------------------------- licences

  /** The licence filters the services pass to `findLicense`. */
  datatype LicenseQuery =
    | UnsoldOfSku(skuId: Id)                 // { productSku, isSold: false }
    | OfProductSku(productId: Id, skuId: Id) // { product, productSku }
    | WithId(id: Id)                         // { _id }

  predicate Matches(q: LicenseQuery, l: License) {
    match q
    case UnsoldOfSku(s) => l.productSku == s && !l.isSold
    case OfProductSku(p, s) => l.product == p && l.productSku == s
    case WithId(id) => l.id == id
  }

  function Matcher(q: LicenseQuery): License -> bool {
    (l: License) => Matches(q, l)
  }

  /** `licenseModel.find(query)`: every match, in natural order. */
  function Matching(ls: seq<License>, q: LicenseQuery): (r: seq<License>)
    ensures |r| <= |ls|
    ensures forall k :: 0 <= k < |r| ==> r[k] in ls && Matches(q, r[k])
    ensures forall k :: 0 <= k < |ls| && Matches(q, ls[k]) ==> ls[k] in r
  {
    Filter(ls, Matcher(q))
  }

  /** A query finds nothing exactly when no licence matches it. */
  lemma MatchingEmpty(ls: seq<License>, q: LicenseQuery)
    ensures |Matching(ls, q)| == 0 <==> forall k :: 0 <= k < |ls| ==> !Matches(q, ls[k])
  {
    var all := Matching(ls, q);
    if |all| > 0 {
      assert all[0] in ls && Matches(q, all[0]);
    }
  }

  /** `findLicense(query, limit)`: `.limit(limit)` is applied only when the limit is
      truthy and positive. The result is a prefix of the matches in natural order:
      `limit` of them when a positive limit is given and enough match, every match
      otherwise. */
  function FindLicense(ls: seq<License>, q: LicenseQuery, limit: Option<int>): (r: seq<License>)
    ensures |r| <= |Matching(ls, q)| && r == Matching(ls, q)[..|r|]
    ensures forall k :: 0 <= k < |r| ==> r[k] in ls && Matches(q, r[k])
    ensures limit.Some? && limit.value > 0 ==>
      |r| == if limit.value < |Matching(ls, q)| then limit.value else |Matching(ls, q)|
    ensures limit.None? || limit.value <= 0 ==> r == Matching(ls, q)
  {
    var all := Matching(ls, q);
    if limit.Some? && limit.value > 0 && limit.value < |all| then all[..limit.value] else all
  }

  /** The `$set` applied by `updateLicenseMany` in allocation. */
  datatype LicenseUpdate = StampOrder(orderId: Id) | SellTo(orderId: Id)

  function ApplyUpdate(l: License, u: LicenseUpdate): License {
    match u
    case StampOrder(o) => l.(orderId := Some(o))
    case SellTo(o) => l.(isSold := true, orderId := Some(o))
  }

  /** `updateMany({ _id: { $in: ids } }, { $set: ... })`: every licence whose id is
      listed is updated in place; every other licence is left as it is. */
  function UpdateLicenseMany(ls: seq<License>, ids: set<Id>, u: LicenseUpdate): (r: seq<License>)
    ensures |r| == |ls|
    ensures forall k :: 0 <= k < |ls| && ls[k].id !in ids ==> r[k] == ls[k]
    ensures forall k :: 0 <= k < |ls| && ls[k].id in ids ==>
      && r[k].id == ls[k].id && r[k].licenseKey == ls[k].licenseKey
      && r[k].product == ls[k].product && r[k].productSku == ls[k].productSku && r[k].orderId == Some(u.orderId)
      && r[k].isSold == (u.SellTo? || ls[k].isSold)
  {
    seq(|ls|, k requires 0 <= k < |ls| => if ls[k].id in ids then ApplyUpdate(ls[k], u) else ls[k])
  }

  function IdsOf(ls: seq<License>): (r: set<Id>)
    ensures forall k :: 0 <= k < |ls| ==> ls[k].id in r
    ensures forall id :: id in r ==> exists k :: 0 <= k < |ls| && ls[k].id == id
  {
    set k | 0 <= k < |ls| :: ls[k].id
  }

  function KeysOf(ls: seq<License>): (r: seq<string>)
    ensures |r| == |ls|
    ensures forall k :: 0 <= k < |ls| ==> r[k] == ls[k].licenseKey
  {
    seq(|ls|, k requires 0 <= k < |ls| => ls[k].licenseKey)
  }

  /** `deleteAllLicences(productId, skuId)`: by product when `productId` is truthy,
      otherwise by SKU. */
  function DeleteAllLicences(ls: seq<License>, productId: Option<Id>, skuId: Id): (r: seq<License>)
    ensures Truthy(productId) ==> forall l :: l in r <==> l in ls && l.product != productId.value
    ensures !Truthy(productId) ==> forall l :: l in r <==> l in ls && l.productSku != skuId
  {
    if Truthy(productId) then Filter(ls, (l: License) => l.product != productId.value)
    else Filter(ls, (l: License) => l.productSku != skuId)
  }

  /** `findOneAndDelete({ _id: id })`: the first licence with that id goes. */
  function RemoveAt<T>(s: seq<T>, i: nat): (r: seq<T>)
    requires i < |s|
    ensures |r| == |s| - 1
    ensures forall k :: 0 <= k < i ==> r[k] == s[k]
    ensures forall k :: i <= k < |r| ==> r[k] == s[k + 1]
  {
    s[..i] + s[i + 1..]
  }

  function LicenseIndex(ls: seq<License>, id: Id): (r: Option<nat>)
    ensures r.Some? ==> r.value < |ls| && ls[r.value].id == id
    ensures r.None? ==> forall k :: 0 <= k < |ls| ==> ls[k].id != id
  {
    FirstIndex(ls, (l: License) => l.id == id)
  }
}
