/** The catalog rules of `ProductsService` as functions over the stores: product
    creation, the pagination metadata of a listing, the `$set` document of a SKU
    update, the validation of licence-key operations, and the review rules with
    the average rating they keep. `ProductsService` in products_service.dfy is
    proved against these functions. */
module Catalog {
  import opened Common
  import opened Inventory
  import opened OrderStore

  // ================================================================ products

  predicate UniqueNames(ps: seq<Product>) {
    forall i, j :: 0 <= i < j < |ps| ==> ps[i].productName != ps[j].productName
  }

  /** `createProduct(dto)` (products.service.ts lines 37-68). A product without a
      provider product id gets the one the provider returns, `createdStripeId`;
      that call is made before the name is checked. */
  function CreateProduct(ps: seq<Product>, p: Product, createdStripeId: Id): Result<seq<Product>>
  {
    var stored := if p.stripeProductId == "" then p.(stripeProductId := createdStripeId) else p;
    if ProductNameIndex(ps, p.productName).Some? then Err(Conflict) else Ok(ps + [stored])
  }

  /** A name already in the catalog is refused with Conflict and nothing is
      stored; any other product is accepted, and then exactly the new product is
      appended, with a provider product id, and a catalog whose names were unique
      stays so. */
  lemma CreateProductOutcome(ps: seq<Product>, p: Product, createdStripeId: Id)
    ensures CreateProduct(ps, p, createdStripeId) == Err(Conflict) <==>
      exists k :: 0 <= k < |ps| && ps[k].productName == p.productName
    ensures CreateProduct(ps, p, createdStripeId).Ok? <==>
      forall k :: 0 <= k < |ps| ==> ps[k].productName != p.productName
    ensures CreateProduct(ps, p, createdStripeId).Ok? ==>
      var r := CreateProduct(ps, p, createdStripeId).value;
      && |r| == |ps| + 1 && r[..|ps|] == ps
      && r[|ps|] == p.(stripeProductId := r[|ps|].stripeProductId)
      && r[|ps|].stripeProductId == (if p.stripeProductId == "" then createdStripeId else p.stripeProductId)
      && (UniqueNames(ps) ==> UniqueNames(r))
  {
    if CreateProduct(ps, p, createdStripeId).Ok? {
      var r := CreateProduct(ps, p, createdStripeId).value;
      assert r[..|ps|] == ps;
    }
  }

  // ============================================================== pagination

  /** `value || fallback` on an optional number: absent and 0 are falsy. */
  function OrDefault(v: Option<int>, fallback: int): int {
    if v.Some? && v.value != 0 then v.value else fallback
  }

  /** `Math.ceil(a / b)`. */
  function CeilDiv(a: int, b: int): int
    requires b != 0
  {
    if b > 0 then (a + b - 1) / b else (-a - b - 1) / -b
  }

  /** `CeilDiv` is the ceiling of the quotient: the least whole number at or above
      `a / b`, whichever the sign of `b`. */
  lemma CeilDivIsCeiling(a: int, b: int)
    requires b != 0
    ensures b > 0 ==> (CeilDiv(a, b) - 1) * b < a <= CeilDiv(a, b) * b
    ensures b < 0 ==> (CeilDiv(a, b) - 1) * b > a >= CeilDiv(a, b) * b
  {
    var a', b' := if b > 0 then a else -a, if b > 0 then b else -b;
    var q := (a' + b' - 1) / b';
    var m := (a' + b' - 1) % b';
    assert a' + b' - 1 == q * b' + m && 0 <= m < b';
    assert CeilDiv(a, b) == q;
    assert (q - 1) * b' == q * b' - b';
    if b < 0 {
      assert q * b == -(q * b');
      assert (q - 1) * b == -((q - 1) * b');
    }
  }

  datatype Metadata = Metadata(skip: int, limit: int, total: nat, pages: int)

  /** The listing metadata of `findAllProducts` (products.service.ts lines 82-86
      and 112-117): page defaults to 1 and limit to 12. */
  function PageMetadata(page: Option<int>, limit: Option<int>, total: nat): (m: Metadata)
    ensures m.limit != 0
  {
    var pg := OrDefault(page, 1);
    var lim := OrDefault(limit, 12);
    Metadata((pg - 1) * lim, lim, total, CeilDiv(total, lim))
  }

  /** The metadata describe the page asked for: the limit is the one given or 12,
      the skip counts the documents of the pages before (none on the first page),
      and for a positive limit the pages are the fewest that hold every product. */
  lemma PageMetadataMeaning(page: Option<int>, limit: Option<int>, total: nat)
    ensures var m := PageMetadata(page, limit, total);
      && m.total == total
      && m.limit == (if limit.Some? && limit.value != 0 then limit.value else 12)
      && m.skip == (OrDefault(page, 1) - 1) * m.limit
      && (page.None? || page.value == 0 || page.value == 1 ==> m.skip == 0)
      && (m.limit > 0 ==> m.pages >= 0 && (m.pages - 1) * m.limit < total <= m.pages * m.limit)
      && (m.limit > 0 ==> (m.pages == 0 <==> total == 0))
  {
    var m := PageMetadata(page, limit, total);
    CeilDivIsCeiling(total, m.limit);
  }

  datatype Listing = Listing(metadata: Metadata, products: seq<Product>)

  /** The non-home-page answer of `findAllProducts` for the page `find` returned. */
  function ListProducts(page: Option<int>, limit: Option<int>, totalProductCount: nat, products: seq<Product>): (r: Result<Listing>)
    ensures r.Err? <==> |products| == 0
    ensures r.Err? ==> r.error == NotFound
    ensures r.Ok? ==> r.value.products == products && r.value.metadata.total == totalProductCount
  {
    if |products| == 0 then Err(NotFound)
    else Ok(Listing(PageMetadata(page, limit, totalProductCount), products))
  }

  /** The document `findProductWithGroupBy` answers for the home page: its two
      facets. */
  datatype HomeGroups = HomeGroups(latestProducts: seq<Product>, topRatedProducts: seq<Product>)

  /** What `findAllProducts` answers: a page of the listing, or the home page. */
  datatype ProductsAnswer = Paged(listing: Listing) | HomePage(groups: seq<HomeGroups>)

  /** The home-page answer of `findAllProducts` for what the aggregation returns. */
  function HomeProducts(groups: seq<HomeGroups>): (r: Result<ProductsAnswer>)
    ensures r.Err? <==> |groups| == 0
    ensures r.Err? ==> r.error == NotFound
    ensures r.Ok? ==> r.value.HomePage? && r.value.groups == groups
  {
    if |groups| == 0 then Err(NotFound) else Ok(HomePage(groups))
  }

  // ============================================================ SKU updates

  /** A request body as JavaScript holds it: its own keys in order, each once. */
  type Entries = seq<(string, FieldValue)>

  predicate DistinctKeys(e: Entries) {
    forall i, j :: 0 <= i < j < |e| ==> e[i].0 != e[j].0
  }

  /** The `reduce` of `updateProductSkuById` (products.service.ts lines 388-391):
      every key of the body, in order, becomes `skuDetails.$.<key>` with the same
      value. */
  function UpdateDoc(e: Entries): map<string, FieldValue>
  {
    if |e| == 0 then map[]
    else UpdateDoc(e[..|e| - 1])[SkuPath(e[|e| - 1].0) := e[|e| - 1].1]
  }

  /** The `$set` document holds a path for every key of the body and nothing else,
      each with the body's value for that key. */
  lemma {:induction false} UpdateDocMapsEveryKey(e: Entries)
    requires DistinctKeys(e)
    ensures forall i :: 0 <= i < |e| ==> SkuPath(e[i].0) in UpdateDoc(e) && UpdateDoc(e)[SkuPath(e[i].0)] == e[i].1
    ensures forall p :: p in UpdateDoc(e) ==> exists i :: 0 <= i < |e| && p == SkuPath(e[i].0)
  {
    if |e| > 0 {
      var init := e[..|e| - 1];
      UpdateDocMapsEveryKey(init);
      forall i | 0 <= i < |e|
        ensures SkuPath(e[i].0) in UpdateDoc(e) && UpdateDoc(e)[SkuPath(e[i].0)] == e[i].1
      {
        if i < |e| - 1 {
          assert init[i] == e[i];
          assert SkuPath(e[i].0) != SkuPath(e[|e| - 1].0) by {
            assert SkuPath(e[i].0)[|SkuPathPrefix|..] != SkuPath(e[|e| - 1].0)[|SkuPathPrefix|..];
          }
        }
      }
      forall p | p in UpdateDoc(e)
        ensures exists i :: 0 <= i < |e| && p == SkuPath(e[i].0)
      {
        if p != SkuPath(e[|e| - 1].0) {
          var i :| 0 <= i < |init| && p == SkuPath(init[i].0);
          assert e[i] == init[i];
        }
      }
    }
  }

  /** The value the body holds for a key. */
  function EntryValue(e: Entries, key: string): Option<FieldValue> {
    if |e| == 0 then None
    else if e[|e| - 1].0 == key then Some(e[|e| - 1].1)
    else EntryValue(e[..|e| - 1], key)
  }

  /** `data[key] = v`: an existing key keeps its place, a new one goes last. */
  function SetEntry(e: Entries, key: string, v: FieldValue): (r: Entries)
  {
    if |e| == 0 then [(key, v)]
    else if e[|e| - 1].0 == key then e[..|e| - 1] + [(key, v)]
    else SetEntry(e[..|e| - 1], key, v) + [e[|e| - 1]]
  }

  predicate HasKey(e: Entries, key: string) {
    exists i :: 0 <= i < |e| && e[i].0 == key
  }

  /** Assigning a key gives the key its new value and leaves every other key's
      value as it was. */
  lemma {:induction false} SetEntryValues(e: Entries, key: string, v: FieldValue)
    ensures EntryValue(SetEntry(e, key, v), key) == Some(v)
    ensures forall k :: k != key ==> EntryValue(SetEntry(e, key, v), k) == EntryValue(e, k)
  {
    if |e| > 0 {
      var init := e[..|e| - 1];
      var r := SetEntry(e, key, v);
      if e[|e| - 1].0 == key {
        assert r[..|r| - 1] == init;
      } else {
        SetEntryValues(init, key, v);
        assert r[..|r| - 1] == SetEntry(init, key, v);
      }
    }
  }

  /** The keys of a body with one more entry. */
  lemma HasKeySnoc(e: Entries, x: (string, FieldValue))
    ensures forall k :: HasKey(e + [x], k) <==> HasKey(e, k) || x.0 == k
  {
    forall k ensures HasKey(e + [x], k) <==> HasKey(e, k) || x.0 == k {
      if HasKey(e, k) {
        var i :| 0 <= i < |e| && e[i].0 == k;
        assert (e + [x])[i] == e[i];
      }
      if x.0 == k {
        assert (e + [x])[|e|] == x;
      }
      if HasKey(e + [x], k) && x.0 != k {
        var i :| 0 <= i < |e + [x]| && (e + [x])[i].0 == k;
        assert e[i] == (e + [x])[i];
      }
    }
  }

  /** Assigning a key adds that key, if it is new, to the keys of the body. */
  lemma {:induction false} SetEntryKeys(e: Entries, key: string, v: FieldValue)
    ensures forall k :: HasKey(SetEntry(e, key, v), k) <==> k == key || HasKey(e, k)
  {
    if |e| == 0 {
      HasKeySnoc([], (key, v));
      assert SetEntry(e, key, v) == [] + [(key, v)];
    } else {
      var init := e[..|e| - 1];
      var last := e[|e| - 1];
      assert e == init + [last];
      HasKeySnoc(init, last);
      if last.0 == key {
        HasKeySnoc(init, (key, v));
      } else {
        SetEntryKeys(init, key, v);
        HasKeySnoc(SetEntry(init, key, v), last);
      }
    }
  }

  /** Assigning a key keeps the keys of a body distinct. */
  lemma {:induction false} SetEntryDistinct(e: Entries, key: string, v: FieldValue)
    requires DistinctKeys(e)
    ensures DistinctKeys(SetEntry(e, key, v))
  {
    if |e| > 0 {
      var init := e[..|e| - 1];
      var last := e[|e| - 1];
      var r := SetEntry(e, key, v);
      assert forall i :: 0 <= i < |init| ==> init[i] == e[i];
      if last.0 == key {
        assert r == init + [(key, v)];
        assert forall i :: 0 <= i < |init| ==> r[i] == e[i];
      } else {
        SetEntryDistinct(init, key, v);
        SetEntryKeys(init, key, v);
        var r' := SetEntry(init, key, v);
        assert r == r' + [last];
        assert forall i :: 0 <= i < |r'| ==> r[i] == r'[i];
        assert !HasKey(init, last.0);
        assert !HasKey(r', last.0);
      }
    }
  }

  /** `data.price !== sku.price`: a price missing from the body also differs. */
  predicate PriceChanged(e: Entries, sku: Sku) {
    EntryValue(e, "price") != Some(NumValue(sku.price))
  }

  /** Two keys name the same path only if they are the same key. */
  lemma SkuPathInjective(a: string, b: string)
    ensures SkuPath(a) == SkuPath(b) <==> a == b
  {
    if SkuPath(a) == SkuPath(b) {
      assert SkuPath(a)[|SkuPathPrefix|..] == SkuPath(b)[|SkuPathPrefix|..];
    }
  }

  /** Read through the `$set` document, a path holds the body's value for its key,
      and only keys of the body have a path; where a key repeats, the later entry
      wins in both. */
  lemma {:induction false} UpdateDocValue(e: Entries, key: string)
    ensures SkuPath(key) in UpdateDoc(e) <==> EntryValue(e, key).Some?
    ensures SkuPath(key) in UpdateDoc(e) ==> UpdateDoc(e)[SkuPath(key)] == EntryValue(e, key).value
  {
    if |e| > 0 {
      UpdateDocValue(e[..|e| - 1], key);
      SkuPathInjective(e[|e| - 1].0, key);
    }
  }

  /** A SKU field as the body gives it: the body's value when it has one of the
      field's type, the SKU's own value otherwise. */
  function StrField(e: Entries, key: string, dflt: string): string {
    match EntryValue(e, key)
    case Some(StrValue(v)) => v
    case _ => dflt
  }

  function NumField(e: Entries, key: string, dflt: int): int {
    match EntryValue(e, key)
    case Some(NumValue(v)) => v
    case _ => dflt
  }

  function BoolField(e: Entries, key: string, dflt: bool): bool {
    match EntryValue(e, key)
    case Some(BoolValue(v)) => v
    case _ => dflt
  }

  /** The SKU a request body describes, field by field, over the SKU it updates. */
  function SkuFromBody(s: Sku, e: Entries): Sku {
    Sku(
      s.id,
      StrField(e, "skuName", s.skuName),
      NumField(e, "price", s.price),
      NumField(e, "validity", s.validity),
      BoolField(e, "lifetime", s.lifetime),
      StrField(e, "stripePriceId", s.stripePriceId),
      match EntryValue(e, "skuCode") { case Some(StrValue(v)) => Some(v) case _ => s.skuCode },
      NumField(e, "stock", s.stock))
  }

  lemma StrAtBody(e: Entries, key: string, dflt: string)
    ensures StrAt(UpdateDoc(e), SkuPath(key), dflt) == StrField(e, key, dflt)
  {
    UpdateDocValue(e, key);
  }

  lemma NumAtBody(e: Entries, key: string, dflt: int)
    ensures NumAt(UpdateDoc(e), SkuPath(key), dflt) == NumField(e, key, dflt)
  {
    UpdateDocValue(e, key);
  }

  lemma BoolAtBody(e: Entries, key: string, dflt: bool)
    ensures BoolAt(UpdateDoc(e), SkuPath(key), dflt) == BoolField(e, key, dflt)
  {
    UpdateDocValue(e, key);
  }

  /** Setting the `$set` document built from a body gives the SKU the body
      describes. */
  lemma UpdateDocSetsBody(s: Sku, e: Entries)
    ensures ApplySkuSet(s, UpdateDoc(e)) == SkuFromBody(s, e)
  {
    StrAtBody(e, "skuName", s.skuName);
    NumAtBody(e, "price", s.price);
    NumAtBody(e, "validity", s.validity);
    BoolAtBody(e, "lifetime", s.lifetime);
    StrAtBody(e, "stripePriceId", s.stripePriceId);
    NumAtBody(e, "stock", s.stock);
    UpdateDocValue(e, "skuCode");
  }

  /** The body `updateProductSkuById` turns into the `$set` document: when the
      price differs from the SKU's, `newPriceId` (the id of the price the provider
      creates) is assigned to `stripePriceId`. */
  function SkuUpdateBody(e: Entries, sku: Sku, newPriceId: Id): Entries {
    if PriceChanged(e, sku) then SetEntry(e, "stripePriceId", StrValue(newPriceId)) else e
  }

  /** `updateProductSkuById` (products.service.ts lines 347-406): the product by
      id, then its first SKU with the id, then one positional `$set`. */
  function UpdateSkuById(ps: seq<Product>, productId: Id, skuId: Id, e: Entries, newPriceId: Id): Result<seq<Product>>
  {
    match ProductIndex(ps, productId)
    case None => Err(NotFound)
    case Some(i) =>
      match SkuIndex(ps[i], skuId)
      case None => Err(NotFound)
      case Some(j) =>
        Ok(SetSkuFields(ps, productId, skuId, UpdateDoc(SkuUpdateBody(e, ps[i].skuDetails[j], newPriceId))))
  }

  /** A missing product, or a SKU the product does not hold, is NotFound.
      Otherwise exactly that SKU changes, to what the body describes: a changed
      price comes with the new provider price id, an unchanged one keeps the
      price; its id and every other SKU and product stay as they were. */
  lemma UpdateSkuByIdOutcome(ps: seq<Product>, productId: Id, skuId: Id, e: Entries, newPriceId: Id)
    ensures var r := UpdateSkuById(ps, productId, skuId, e, newPriceId);
      && (r.Err? <==> ProductIndex(ps, productId).None? || !HasSku(ps[ProductIndex(ps, productId).value], skuId))
      && (r.Err? ==> r.error == NotFound)
      && (r.Ok? ==>
            var i := ProductIndex(ps, productId).value;
            var j := SkuIndex(ps[i], skuId).value;
            var old_ := ps[i].skuDetails[j];
            var new_ := r.value[i].skuDetails[j];
            && |r.value| == |ps|
            && (forall k :: 0 <= k < |ps| && k != i ==> r.value[k] == ps[k])
            && r.value[i] == ps[i].(skuDetails := ps[i].skuDetails[j := new_])
            && new_ == SkuFromBody(old_, SkuUpdateBody(e, old_, newPriceId))
            && new_.id == skuId
            && (PriceChanged(e, old_) ==> new_.stripePriceId == newPriceId)
            && (!PriceChanged(e, old_) ==> new_.price == old_.price))
  {
    match ProductIndex(ps, productId)
    case None =>
    case Some(i) =>
      match SkuIndex(ps[i], skuId)
      case None =>
      case Some(j) =>
        var old_ := ps[i].skuDetails[j];
        var body := SkuUpdateBody(e, old_, newPriceId);
        assert ProductSkuIndex(ps, productId, skuId) == Some(i) by {
          var k := ProductSkuIndex(ps, productId, skuId).value;
          assert !(k < i);
        }
        UpdateDocSetsBody(old_, body);
        if PriceChanged(e, old_) {
          SetEntryValues(e, "stripePriceId", StrValue(newPriceId));
        }
  }

  /** One SKU of `updateProductSku` as pushed: its fresh code (`generateSkuCode`)
      and, when it carries no provider price id, the id of the price created for
      it. */
  function PreparedSku(s: Sku, code: string, priceId: Id): Sku {
    s.(skuCode := Some(code), stripePriceId := if s.stripePriceId != "" then s.stripePriceId else priceId)
  }

  /** The SKU ends up with a price id: its own, or a non-empty one from the provider. */
  predicate PriceAvailable(s: Sku, priceId: Id) {
    s.stripePriceId != "" || priceId != ""
  }

  /** `updateProductSku` (products.service.ts lines 287-345): `codes[k]` is the
      generated code of the k-th SKU and `priceIds[k]` the id the provider returns
      when a price is created for it. An unknown product is NotFound; a created
      price without an id is InternalServerError; otherwise the prepared SKUs are
      appended to the product's SKUs. */
  function UpdateSkus(ps: seq<Product>, productId: Id, skus: seq<Sku>, codes: seq<string>, priceIds: seq<Id>): Result<seq<Product>>
    requires |codes| == |skus| && |priceIds| == |skus|
  {
    match ProductIndex(ps, productId)
    case None => Err(NotFound)
    case Some(i) =>
      if exists k :: 0 <= k < |skus| && !PriceAvailable(skus[k], priceIds[k]) then Err(InternalServerError)
      else
        var prepared := seq(|skus|, k requires 0 <= k < |skus| => PreparedSku(skus[k], codes[k], priceIds[k]));
        Ok(ps[i := ps[i].(skuDetails := ps[i].skuDetails + prepared)])
  }

  /** An unknown product is NotFound and a SKU left without any price id is
      InternalServerError; every other update is accepted. Pushed SKUs always
      carry a code and a provider price id; those given one keep it, and the SKUs
      are appended in the order given after the product's existing SKUs. No other
      product changes. */
  lemma UpdateSkusOutcome(ps: seq<Product>, productId: Id, skus: seq<Sku>, codes: seq<string>, priceIds: seq<Id>)
    requires |codes| == |skus| && |priceIds| == |skus|
    ensures var r := UpdateSkus(ps, productId, skus, codes, priceIds);
      && (r == Err(NotFound) <==> forall k :: 0 <= k < |ps| ==> ps[k].id != productId)
      && (r == Err(InternalServerError) <==>
            ProductIndex(ps, productId).Some? && exists k :: 0 <= k < |skus| && skus[k].stripePriceId == "" && priceIds[k] == "")
      && (r.Ok? <==>
            ProductIndex(ps, productId).Some? && forall k :: 0 <= k < |skus| ==> skus[k].stripePriceId != "" || priceIds[k] != "")
      && (r.Ok? ==>
            var i := ProductIndex(ps, productId).value;
            var n := |ps[i].skuDetails|;
            && |r.value| == |ps|
            && (forall k :: 0 <= k < |ps| && k != i ==> r.value[k] == ps[k])
            && |r.value[i].skuDetails| == n + |skus|
            && r.value[i].skuDetails[..n] == ps[i].skuDetails
            && forall k :: 0 <= k < |skus| ==>
                 var pushed := r.value[i].skuDetails[n + k];
                 && pushed.skuCode == Some(codes[k]) && pushed.stripePriceId != ""
                 && (skus[k].stripePriceId != "" ==> pushed.stripePriceId == skus[k].stripePriceId)
                 && pushed == skus[k].(skuCode := pushed.skuCode, stripePriceId := pushed.stripePriceId))
  {
    var r := UpdateSkus(ps, productId, skus, codes, priceIds);
    if r.Ok? {
      var i := ProductIndex(ps, productId).value;
      assert r.value[i].skuDetails[..|ps[i].skuDetails|] == ps[i].skuDetails;
    }
  }

  // ================================================================ licences

  /** The product and SKU checks the licence operations share: the product by id,
      then the SKU by id within it. */
  function SkuCheck(ps: seq<Product>, productId: Id, skuId: Id): (r: Result<()>)
    ensures r.Err? ==> r.error == NotFound
    ensures r.Ok? <==> ProductIndex(ps, productId).Some? && HasSku(ps[ProductIndex(ps, productId).value], skuId)
  {
    match ProductIndex(ps, productId)
    case None => Err(NotFound)
    case Some(i) => if SkuIndex(ps[i], skuId).None? then Err(NotFound) else Ok(())
  }

  /** `addProductSkuLicense` (products.service.ts lines 408-446). */
  function AddLicense(ps: seq<Product>, ls: seq<License>, productId: Id, skuId: Id, key: string, newId: Id): Result<seq<License>>
  {
    if SkuCheck(ps, productId, skuId).Err? then Err(NotFound)
    else if key == "" then Err(BadRequest)
    else Ok(ls + [License(newId, productId, skuId, key, false, None)])
  }

  /** A licence is added exactly for an existing SKU of the named product and a
      non-empty key, and then it is the one new licence: unsold, of that product
      and SKU, without an order. */
  lemma AddLicenseOutcome(ps: seq<Product>, ls: seq<License>, productId: Id, skuId: Id, key: string, newId: Id)
    ensures var r := AddLicense(ps, ls, productId, skuId, key, newId);
      && (r == Err(NotFound) <==> SkuCheck(ps, productId, skuId).Err?)
      && (r == Err(BadRequest) <==> SkuCheck(ps, productId, skuId).Ok? && key == "")
      && (r.Ok? <==> SkuCheck(ps, productId, skuId).Ok? && key != "")
      && (r.Ok? ==>
            && |r.value| == |ls| + 1 && r.value[..|ls|] == ls
            && r.value[|ls|] == License(newId, productId, skuId, key, false, None))
  {
    var r := AddLicense(ps, ls, productId, skuId, key, newId);
    if r.Ok? {
      assert r.value[..|ls|] == ls;
    }
  }

  /** `removeProductSkuLicense(id)` (products.service.ts lines 448-466). */
  function RemoveLicenseById(ls: seq<License>, id: Id): Result<seq<License>> {
    match LicenseIndex(ls, id)
    case None => Err(NotFound)
    case Some(i) => Ok(RemoveAt(ls, i))
  }

  /** An unknown id is NotFound; otherwise exactly the first licence with that id
      is gone and the rest keep their order. */
  lemma RemoveLicenseOutcome(ls: seq<License>, id: Id)
    ensures RemoveLicenseById(ls, id).Err? <==> forall k :: 0 <= k < |ls| ==> ls[k].id != id
    ensures RemoveLicenseById(ls, id).Ok? ==>
      exists i :: 0 <= i < |ls| && ls[i].id == id
        && (forall k :: 0 <= k < i ==> ls[k].id != id)
        && RemoveLicenseById(ls, id).value == ls[..i] + ls[i + 1..]
  {
    match LicenseIndex(ls, id)
    case None =>
    case Some(i) =>
      assert forall k :: 0 <= k < i ==> ls[k].id != id by {
        forall k | 0 <= k < i ensures ls[k].id != id {
          assert LicenseIndex(ls, id) == FirstIndex(ls, (l: License) => l.id == id);
        }
      }
  }

  /** `getProductSkuLicenses` (products.service.ts lines 468-500). */
  function ListLicenses(ps: seq<Product>, ls: seq<License>, productId: Id, skuId: Id): (r: Result<seq<License>>)
    ensures r.Err? <==> SkuCheck(ps, productId, skuId).Err?
    ensures r.Ok? ==> forall l :: l in r.value <==> l in ls && l.product == productId && l.productSku == skuId
  {
    if SkuCheck(ps, productId, skuId).Err? then Err(NotFound)
    else
      var all := Matching(ls, OfProductSku(productId, skuId));
      assert forall l :: l in ls && l.product == productId && l.productSku == skuId ==> l in all by {
        forall l | l in ls && l.product == productId && l.productSku == skuId ensures l in all {
          var k :| 0 <= k < |ls| && ls[k] == l;
        }
      }
      Ok(all)
  }

  /** `updateProductSkuLicense` AS WRITTEN (products.service.ts lines 502-545): the
      `!license` test is made on the array `findLicense` returns, which is never
      falsy, so an unknown licence id passes and the update matches nothing. */
  function UpdateLicenseKeyAsWritten(ps: seq<Product>, ls: seq<License>, productId: Id, skuId: Id, id: Id, key: string): Result<seq<License>>
  {
    if SkuCheck(ps, productId, skuId).Err? then Err(NotFound)
    else if key == "" then Err(BadRequest)
    else
      match LicenseIndex(ls, id)
      case None => Ok(ls)
      case Some(i) => Ok(ls[i := ls[i].(licenseKey := key)])
  }

  /** `updateProductSkuLicense` with the existence check doing what it evidently
      means to: an unknown licence id is NotFound. */
  function UpdateLicenseKey(ps: seq<Product>, ls: seq<License>, productId: Id, skuId: Id, id: Id, key: string): Result<seq<License>>
  {
    if SkuCheck(ps, productId, skuId).Err? then Err(NotFound)
    else if key == "" then Err(BadRequest)
    else
      match LicenseIndex(ls, id)
      case None => Err(NotFound)
      case Some(i) => Ok(ls[i := ls[i].(licenseKey := key)])
  }

  /** The corrected update refuses a missing product or SKU and an unknown licence
      id with NotFound and an empty key with BadRequest; every other update is
      accepted and changes the key of the first licence with that id and nothing
      else. It agrees with the
      written one except on an unknown id. */
  lemma UpdateLicenseKeyOutcome(ps: seq<Product>, ls: seq<License>, productId: Id, skuId: Id, id: Id, key: string)
    ensures var r := UpdateLicenseKey(ps, ls, productId, skuId, id, key);
      && (r == Err(NotFound) <==>
            SkuCheck(ps, productId, skuId).Err? || (key != "" && forall k :: 0 <= k < |ls| ==> ls[k].id != id))
      && (r == Err(BadRequest) <==> SkuCheck(ps, productId, skuId).Ok? && key == "")
      && (r.Ok? <==>
            SkuCheck(ps, productId, skuId).Ok? && key != "" && exists k :: 0 <= k < |ls| && ls[k].id == id)
      && (r.Ok? ==>
            && |r.value| == |ls|
            && exists i :: 0 <= i < |ls| && ls[i].id == id
                 && r.value[i] == ls[i].(licenseKey := key)
                 && forall k :: 0 <= k < |ls| && k != i ==> r.value[k] == ls[k])
      && (LicenseIndex(ls, id).Some? ==> r == UpdateLicenseKeyAsWritten(ps, ls, productId, skuId, id, key))
  {
  }

  /** With an existing product and SKU and a non-empty key, an unknown licence id
      is answered with success and no change by the written code, and with
      NotFound by the corrected one. */
  lemma UpdateLicenseKeyUnknownIdPasses()
    ensures var ps := [Product("p1", "Suite", "prod_1", [Sku("s1", "Pro", 10, 365, false, "price_1", Some("c1"), 5)], [], Unrated)];
      && UpdateLicenseKeyAsWritten(ps, [], "p1", "s1", "l9", "KEY-9") == Ok([])
      && UpdateLicenseKey(ps, [], "p1", "s1", "l9", "KEY-9") == Err(NotFound)
  {
    var ps := [Product("p1", "Suite", "prod_1", [Sku("s1", "Pro", 10, 365, false, "price_1", Some("c1"), 5)], [], Unrated)];
    assert ProductIndex(ps, "p1") == Some(0);
    assert HasSku(ps[0], "s1") by { assert ps[0].skuDetails[0].id == "s1"; }
  }

  // ================================================================= reviews

  function Ratings(fb: seq<Feedback>): (r: seq<int>)
    ensures |r| == |fb| && forall k :: 0 <= k < |fb| ==> r[k] == fb[k].rating
  {
    seq(|fb|, k requires 0 <= k < |fb| => fb[k].rating)
  }

  function Sum(rs: seq<int>): int {
    if |rs| == 0 then 0 else Sum(rs[..|rs| - 1]) + rs[|rs| - 1]
  }

  /** The arithmetic mean the stored text renders (before rounding to two places). */
  function Mean(rs: seq<int>): real
    requires |rs| > 0
  {
    Sum(rs) as real / |rs| as real
  }

  /** The ratings an `avgRating` value stands for. */
  function RatingsOf(a: AvgRating): seq<int> {
    match a
    case Unrated => []
    case ZeroText => []
    case RatingText(r) => [r]
    case MeanOf(rs) => rs
  }

  /** The stored average is the average of the stored reviews. */
  predicate AverageCurrent(p: Product) {
    RatingsOf(p.avgRating) == Ratings(p.feedbackDetails)
  }

  /** The average `addProductReview` stores AS WRITTEN (products.service.ts lines
      578-589): the new rating alone when there are no reviews yet, otherwise the
      mean of the EXISTING reviews, without the one being added. */
  function NewAverageAsWritten(fb: seq<Feedback>, rating: int): AvgRating {
    if |fb| == 0 then RatingText(rating) else MeanOf(Ratings(fb))
  }

  /** The average with the new rating counted. */
  function NewAverage(fb: seq<Feedback>, rating: int): AvgRating {
    if |fb| == 0 then RatingText(rating) else MeanOf(Ratings(fb) + [rating])
  }

  /** The corrected average is the average of the reviews stored after the push. */
  lemma NewAverageIsCurrent(fb: seq<Feedback>, review: Feedback)
    ensures RatingsOf(NewAverage(fb, review.rating)) == Ratings(fb + [review])
  {
    assert Ratings(fb + [review]) == Ratings(fb) + [review.rating];
  }

  /** The written average leaves the new rating out: after a 5 and a new 1 it
      stores the mean 5 instead of 3. */
  lemma NewAverageAsWrittenIgnoresNewRating()
    ensures var fb := [Feedback("f1", "u1", "Ann", 5, "good")];
      var review := Feedback("f2", "u2", "Bob", 1, "bad");
      && RatingsOf(NewAverageAsWritten(fb, review.rating)) != Ratings(fb + [review])
      && Mean(RatingsOf(NewAverageAsWritten(fb, review.rating))) == 5.0
      && Mean(Ratings(fb + [review])) == 3.0
  {
    var fb := [Feedback("f1", "u1", "Ann", 5, "good")];
    var review := Feedback("f2", "u2", "Bob", 1, "bad");
    assert Ratings(fb) == [5];
    assert Ratings(fb + [review]) == [5, 1];
    assert [5, 1][..1] == [5];
    assert [5][..0] == [];
  }

  predicate HasReviewBy(p: Product, userId: Id) {
    exists k :: 0 <= k < |p.feedbackDetails| && p.feedbackDetails[k].customerId == userId
  }

  /** `addProductReview` (products.service.ts lines 547-611), with the corrected
      average. Any order of the user holding the product counts as a purchase.
      The stored review names the user who sends it as its customer. */
  function AddReview(ps: seq<Product>, os: seq<Order>, productId: Id, userId: Id, review: Feedback): Result<seq<Product>>
    requires review.customerId == userId
  {
    match ProductIndex(ps, productId)
    case None => Err(NotFound)
    case Some(i) =>
      if HasReviewBy(ps[i], userId) then Err(BadRequest)
      else if PurchaseIndex(os, userId, productId).None? then Err(BadRequest)
      else Ok(ps[i := ps[i].(avgRating := NewAverage(ps[i].feedbackDetails, review.rating),
                             feedbackDetails := ps[i].feedbackDetails + [review])])
  }

  /** A review is refused NotFound for an unknown product, and BadRequest when the
      user already reviewed it or has no order holding it; every other review is
      accepted. An accepted review is appended to that product alone, which then
      holds a review by the user, and whose stored average is the average of its
      stored reviews. */
  lemma AddReviewOutcome(ps: seq<Product>, os: seq<Order>, productId: Id, userId: Id, review: Feedback)
    requires review.customerId == userId
    ensures var r := AddReview(ps, os, productId, userId, review);
      && (r == Err(NotFound) <==> forall k :: 0 <= k < |ps| ==> ps[k].id != productId)
      && (ProductIndex(ps, productId).Some? ==>
            var p := ps[ProductIndex(ps, productId).value];
            r == Err(BadRequest) <==>
              HasReviewBy(p, userId) || forall k :: 0 <= k < |os| ==> !(os[k].userId == Some(userId) && HasProduct(os[k], productId)))
      && (r.Ok? <==>
            ProductIndex(ps, productId).Some? && !HasReviewBy(ps[ProductIndex(ps, productId).value], userId)
            && exists k :: 0 <= k < |os| && os[k].userId == Some(userId) && HasProduct(os[k], productId))
      && (r.Ok? ==>
            var i := ProductIndex(ps, productId).value;
            && |r.value| == |ps|
            && (forall k :: 0 <= k < |ps| && k != i ==> r.value[k] == ps[k])
            && r.value[i].feedbackDetails == ps[i].feedbackDetails + [review]
            && HasReviewBy(r.value[i], userId)
            && AverageCurrent(r.value[i]))
  {
    match ProductIndex(ps, productId)
    case None =>
    case Some(i) =>
      NewAverageIsCurrent(ps[i].feedbackDetails, review);
      if AddReview(ps, os, productId, userId, review).Ok? {
        var fb := AddReview(ps, os, productId, userId, review).value[i].feedbackDetails;
        assert fb[|fb| - 1].customerId == userId;
      }
  }

  /** A user reviews a product at most once: after an accepted review, any
      further review of the same product by the same user is BadRequest. */
  lemma AddReviewOnce(ps: seq<Product>, os: seq<Order>, productId: Id, userId: Id, review: Feedback, again: Feedback)
    requires review.customerId == userId && again.customerId == userId
    requires AddReview(ps, os, productId, userId, review).Ok?
    ensures AddReview(AddReview(ps, os, productId, userId, review).value, os, productId, userId, again) == Err(BadRequest)
  {
    AddReviewOutcome(ps, os, productId, userId, review);
    var qs := AddReview(ps, os, productId, userId, review).value;
    var i := ProductIndex(ps, productId).value;
    assert qs[i].id == productId;
    assert ProductIndex(qs, productId) == Some(i) by {
      FirstIndexAgree(ps, (p: Product) => p.id == productId, qs, (p: Product) => p.id == productId);
    }
  }

  /** The average `removeProductReview` stores (products.service.ts lines 630-642):
      "0" when no other review remains, otherwise the mean of the others. */
  function RemainingAverage(fb: seq<Feedback>, reviewId: Id): AvgRating {
    var rs := Ratings(FeedbackWithout(fb, reviewId));
    if |rs| == 0 then ZeroText else MeanOf(rs)
  }

  predicate HasReview(p: Product, reviewId: Id) {
    exists k :: 0 <= k < |p.feedbackDetails| && p.feedbackDetails[k].id == reviewId
  }

  /** `removeProductReview` (products.service.ts lines 613-657). */
  function RemoveReview(ps: seq<Product>, productId: Id, reviewId: Id): Result<seq<Product>>
  {
    match ProductIndex(ps, productId)
    case None => Err(NotFound)
    case Some(i) =>
      if !HasReview(ps[i], reviewId) then Err(NotFound)
      else Ok(ps[i := ps[i].(avgRating := RemainingAverage(ps[i].feedbackDetails, reviewId),
                             feedbackDetails := FeedbackWithout(ps[i].feedbackDetails, reviewId))])
  }

  /** An unknown product or review is NotFound. Otherwise that product alone
      changes: the review is pulled, every other review stays, and the stored
      average is the average of the remaining reviews, "0" when none remain. */
  lemma RemoveReviewOutcome(ps: seq<Product>, productId: Id, reviewId: Id)
    ensures var r := RemoveReview(ps, productId, reviewId);
      && (r.Err? <==> ProductIndex(ps, productId).None? || !HasReview(ps[ProductIndex(ps, productId).value], reviewId))
      && (r.Err? ==> r.error == NotFound)
      && (r.Ok? ==>
            var i := ProductIndex(ps, productId).value;
            var fb := r.value[i].feedbackDetails;
            && |r.value| == |ps|
            && (forall k :: 0 <= k < |ps| && k != i ==> r.value[k] == ps[k])
            && r.value[i] == ps[i].(feedbackDetails := fb, avgRating := r.value[i].avgRating)
            && !HasReview(r.value[i], reviewId)
            && (forall f :: f in fb ==> f in ps[i].feedbackDetails)
            && (forall f :: f in ps[i].feedbackDetails && f.id != reviewId ==> f in fb)
            && AverageCurrent(r.value[i])
            && (|fb| == 0 <==> r.value[i].avgRating == ZeroText))
  {
    match ProductIndex(ps, productId)
    case None =>
    case Some(i) =>
      if HasReview(ps[i], reviewId) {
        var fb := FeedbackWithout(ps[i].feedbackDetails, reviewId);
        forall f | f in ps[i].feedbackDetails && f.id != reviewId
          ensures f in fb
        {
          var k :| 0 <= k < |ps[i].feedbackDetails| && ps[i].feedbackDetails[k] == f;
        }
      }
  }
}
