/** The order-fulfilment path of `OrdersService` as functions over the stores:
    the checkout planner, idempotent order creation, licence allocation
    (`getLicense`) and the webhook state machine. `OrdersService` in
    orders_service.dfy performs the same steps call by call and is proved to
    reach exactly the states these functions describe. */
module Fulfillment {
  import opened Common
  import opened Inventory
  import opened OrderStore

  // ================================================================ checkout

  datatype CartItem = CartItem(skuId: Id, quantity: int, skuPriceId: string)

  /** A provider line item: price id, quantity and the adjustable-quantity range
      (always enabled). */
  datatype LineItem = LineItem(price: string, quantity: int, maximum: int, minimum: int)

  /** What the provider answered to the session request: the hosted page's URL, a
      `resource_missing` rejection of a price id, or any other failure. */
  datatype SessionOutcome = SessionCreated(url: string) | PriceMissing | ProviderFailure

  predicate HasUnsoldLicense(ls: seq<License>, skuId: Id) {
    exists k :: 0 <= k < |ls| && ls[k].productSku == skuId && !ls[k].isSold
  }

  /** The checks of one cart entry AS WRITTEN (orders.service.ts lines 125-171): the
      SKU must exist (NotFound), have at least the quantity in stock and carry a
      price id (BadRequest). The licence check there tests `!availableItems` on the
      array `findLicense` returns; an array is never falsy, so that check never
      rejects and does not appear here. */
  function ItemAsWritten(ps: seq<Product>, item: CartItem): (r: Result<LineItem>)
    ensures r.Err? ==> r.error == NotFound || r.error == BadRequest
  {
    match StockOf(ps, item.skuId)
    case None => Err(NotFound)
    case Some(stock) =>
      if stock < item.quantity then Err(BadRequest)
      else if item.skuPriceId == "" then Err(BadRequest)
      else Ok(LineItem(item.skuPriceId, item.quantity, stock, if stock > 1 then 1 else 0))
  }

  /** One cart entry is refused NotFound exactly when no product embeds the SKU;
      otherwise it passes exactly when the stock covers the quantity and a price id
      is given, and its line is priced by that id, for that quantity, adjustable
      between 1 (0 when at most one unit is in stock) and the SKU's stock. */
  lemma ItemAsWrittenOutcome(ps: seq<Product>, item: CartItem)
    ensures ItemAsWritten(ps, item) == Err(NotFound) <==>
      forall k :: 0 <= k < |ps| ==> !HasSku(ps[k], item.skuId)
    ensures StockOf(ps, item.skuId).Some? ==>
      var stock := StockOf(ps, item.skuId).value;
      && (ItemAsWritten(ps, item).Ok? <==> stock >= item.quantity && item.skuPriceId != "")
      && (ItemAsWritten(ps, item).Ok? ==>
            ItemAsWritten(ps, item).value
              == LineItem(item.skuPriceId, item.quantity, stock, if stock > 1 then 1 else 0))
  {
    match OwnerIndex(ps, item.skuId)
    case None =>
    case Some(i) =>
      assert SkuIndex(ps[i], item.skuId).Some?;
  }

  /** One cart entry with the licence check doing what it evidently means to: a
      SKU without an unsold licence is refused with BadRequest. It sits between the
      stock check and the price check, and all three reject with BadRequest, so
      the entry's outcome does not depend on their order. */
  function CheckItem(ps: seq<Product>, ls: seq<License>, item: CartItem): (r: Result<LineItem>)
    ensures r.Err? ==> r.error == NotFound || r.error == BadRequest
  {
    var w := ItemAsWritten(ps, item);
    if w.Ok? && |Inventory.FindLicense(ls, UnsoldOfSku(item.skuId), None)| == 0 then Err(BadRequest) else w
  }

  /** The corrected check passes exactly the entries the written one passes that
      also have an unsold licence, with the same line, and otherwise refuses with
      the written check's error, or BadRequest when only the licence is missing. */
  lemma CheckItemOutcome(ps: seq<Product>, ls: seq<License>, item: CartItem)
    ensures CheckItem(ps, ls, item).Ok? <==> ItemAsWritten(ps, item).Ok? && HasUnsoldLicense(ls, item.skuId)
    ensures CheckItem(ps, ls, item).Ok? || ItemAsWritten(ps, item).Err? ==> CheckItem(ps, ls, item) == ItemAsWritten(ps, item)
    ensures ItemAsWritten(ps, item).Ok? && !HasUnsoldLicense(ls, item.skuId) ==> CheckItem(ps, ls, item) == Err(BadRequest)
  {
    assert Inventory.FindLicense(ls, UnsoldOfSku(item.skuId), None) == Matching(ls, UnsoldOfSku(item.skuId));
    MatchingEmpty(ls, UnsoldOfSku(item.skuId));
  }

  /** The licence check as written lets through a SKU that has stock but no unsold
      licence, which the corrected check refuses. */
  lemma CheckoutLicenceCheckNeverFires()
    ensures var ps := [Product("p1", "Suite", "prod_1", [Sku("s1", "Pro", 10, 365, false, "price_1", Some("c1"), 5)], [], Unrated)];
      var item := CartItem("s1", 1, "price_1");
      && ItemAsWritten(ps, item).Ok? && !HasUnsoldLicense([], "s1")
      && CheckItem(ps, [], item) == Err(BadRequest)
  {
    var ps := [Product("p1", "Suite", "prod_1", [Sku("s1", "Pro", 10, 365, false, "price_1", Some("c1"), 5)], [], Unrated)];
    assert HasSku(ps[0], "s1") by { assert ps[0].skuDetails[0].id == "s1"; }
    assert OwnerIndex(ps, "s1") == Some(0);
    assert SkuIndex(ps[0], "s1") == Some(0);
  }

  /** The outcome of the loop of `checkout` over the entries' outcomes, in cart
      order: the pushed line items, or the rejection that ended it. */
  function Collect(rs: seq<Result<LineItem>>): Result<seq<LineItem>>
  {
    if |rs| == 0 then Ok([])
    else
      match Collect(rs[..|rs| - 1])
      case Err(e) => Err(e)
      case Ok(lines) =>
        match rs[|rs| - 1]
        case Err(e) => Err(e)
        case Ok(line) => Ok(lines + [line])
  }

  /** The outcome of the checks of each cart entry. The loop only reads the
      stores, so every entry is checked against the same state. */
  function EntryOutcomes(ps: seq<Product>, ls: seq<License>, cart: seq<CartItem>): (r: seq<Result<LineItem>>)
    ensures |r| == |cart|
    ensures forall k :: 0 <= k < |cart| ==> r[k] == CheckItem(ps, ls, cart[k])
  {
    seq(|cart|, k requires 0 <= k < |cart| => CheckItem(ps, ls, cart[k]))
  }

  function PlanLines(ps: seq<Product>, ls: seq<License>, cart: seq<CartItem>): Result<seq<LineItem>> {
    Collect(EntryOutcomes(ps, ls, cart))
  }

  /** `checkout`: plan the lines, refuse an empty plan, then ask the provider. */
  function Checkout(ps: seq<Product>, ls: seq<License>, cart: seq<CartItem>, provider: SessionOutcome): Result<string>
  {
    match PlanLines(ps, ls, cart)
    case Err(e) => Err(e)
    case Ok(lines) =>
      if |lines| == 0 then Err(BadRequest)
      else
        match provider
        case SessionCreated(url) => Ok(url)
        case PriceMissing => Err(BadRequest)
        case ProviderFailure => Err(InternalServerError)
  }

  /** The loop completes exactly when every entry passes, and then holds one line
      per entry, in order, each the line of its entry. */
  lemma {:induction false} CollectOk(rs: seq<Result<LineItem>>)
    ensures Collect(rs).Ok? <==> forall k :: 0 <= k < |rs| ==> rs[k].Ok?
    ensures Collect(rs).Ok? ==>
      && |Collect(rs).value| == |rs|
      && forall k :: 0 <= k < |rs| ==> Collect(rs).value[k] == rs[k].value
  {
    if |rs| > 0 {
      var init := rs[..|rs| - 1];
      CollectOk(init);
      assert forall k :: 0 <= k < |init| ==> init[k] == rs[k];
    }
  }

  /** A loop that stops stops with the error of the first entry that fails. */
  lemma {:induction false} CollectFirstError(rs: seq<Result<LineItem>>)
    requires Collect(rs).Err?
    ensures exists i :: (0 <= i < |rs|
      && (forall k :: 0 <= k < i ==> rs[k].Ok?)
      && rs[i] == Err(Collect(rs).error))
  {
    var init := rs[..|rs| - 1];
    assert forall k :: 0 <= k < |init| ==> init[k] == rs[k];
    if Collect(init).Err? {
      CollectFirstError(init);
      var i :| 0 <= i < |init| && (forall k :: 0 <= k < i ==> init[k].Ok?) && init[i] == Err(Collect(init).error);
      assert rs[i] == init[i];
    } else {
      CollectOk(init);
      assert forall k :: 0 <= k < |rs| - 1 ==> rs[k].Ok?;
    }
  }

  /** Once an entry fails after a run of passing ones, the loop stops with its
      error, whatever follows. */
  lemma {:induction false} CollectStops(rs: seq<Result<LineItem>>, i: nat)
    requires i < |rs| && Collect(rs[..i]).Ok? && rs[i].Err?
    ensures Collect(rs) == Err(rs[i].error)
  {
    var init := rs[..|rs| - 1];
    if i == |rs| - 1 {
      assert init == rs[..i];
    } else {
      assert init[..i] == rs[..i];
      CollectStops(init, i);
    }
  }

  /** `checkout` reaches the provider only with a non-empty cart whose every entry
      passes; the lines it sends are one per entry, in order, each the line the
      written checks build for its entry, and every entry has an unsold licence. */
  lemma CheckoutAccepts(ps: seq<Product>, ls: seq<License>, cart: seq<CartItem>, url: string)
    ensures Checkout(ps, ls, cart, SessionCreated(url)).Ok? <==>
      |cart| > 0 && forall k :: 0 <= k < |cart| ==> CheckItem(ps, ls, cart[k]).Ok?
    ensures PlanLines(ps, ls, cart).Ok? ==>
      && |PlanLines(ps, ls, cart).value| == |cart|
      && forall k :: 0 <= k < |cart| ==>
           && HasUnsoldLicense(ls, cart[k].skuId)
           && ItemAsWritten(ps, cart[k]) == Ok(PlanLines(ps, ls, cart).value[k])
  {
    CollectOk(EntryOutcomes(ps, ls, cart));
    forall k | 0 <= k < |cart|
      ensures CheckItem(ps, ls, cart[k]).Ok? ==>
        HasUnsoldLicense(ls, cart[k].skuId) && CheckItem(ps, ls, cart[k]) == ItemAsWritten(ps, cart[k])
    {
      CheckItemOutcome(ps, ls, cart[k]);
    }
  }

  /** Every rejection of `checkout` before the provider call: the first failing
      entry's (NotFound for an unknown SKU, BadRequest for short stock, no unsold
      licence or no price id), or BadRequest for an empty cart. */
  lemma CheckoutRejects(ps: seq<Product>, ls: seq<License>, cart: seq<CartItem>, provider: SessionOutcome)
    requires PlanLines(ps, ls, cart).Err? || |cart| == 0
    ensures Checkout(ps, ls, cart, provider).Err?
    ensures |cart| == 0 ==> Checkout(ps, ls, cart, provider) == Err(BadRequest)
    ensures |cart| > 0 ==> exists i :: (0 <= i < |cart|
      && (forall k :: 0 <= k < i ==> CheckItem(ps, ls, cart[k]).Ok?)
      && CheckItem(ps, ls, cart[i]).Err?
      && Checkout(ps, ls, cart, provider) == Err(CheckItem(ps, ls, cart[i]).error))
  {
    if |cart| > 0 && PlanLines(ps, ls, cart).Err? {
      CollectFirstError(EntryOutcomes(ps, ls, cart));
    }
  }

  // ============================================================= allocation

  /** The stores an operation of `OrdersService` works on. */
  datatype Stores = Stores(products: seq<Product>, licenses: seq<License>, orders: seq<Order>)

  /** The SKU `getLicense` resolves for an item: the product by id, then the first
      of its SKUs with the item's SKU code. */
  function AllocationSku(ps: seq<Product>, item: OrderedItem): Option<Sku>
  {
    match ProductIndex(ps, item.productId)
    case None => None
    case Some(i) =>
      match SkuCodeIndex(ps[i], item.skuCode)
      case None => None
      case Some(j) => Some(ps[i].skuDetails[j])
  }

  /** The licences `getLicense` selects for a SKU. */
  function Selected(ls: seq<License>, sku: Sku, item: OrderedItem): seq<License> {
    Inventory.FindLicense(ls, UnsoldOfSku(sku.id), Some(item.quantity))
  }

  datatype Allocation = Allocation(products: seq<Product>, licenses: seq<License>, keys: seq<string>)

  /** `getLicense(orderId, item)` (orders.service.ts lines 317-382): the product by
      id and its SKU by code (NotFound otherwise), at most `quantity` unsold
      licences of that SKU, the stock write, then the licence update: sold and
      stamped when the new stock is exactly 0, only stamped otherwise. */
  function GetLicense(ps: seq<Product>, ls: seq<License>, orderId: Id, item: OrderedItem): (r: Result<Allocation>)
    ensures r.Err? <==> AllocationSku(ps, item).None?
    ensures r.Err? ==> r.error == NotFound
  {
    match AllocationSku(ps, item)
    case None => Err(NotFound)
    case Some(sku) => Ok(Allocate(ps, ls, orderId, sku, item))
  }

  /** The writes of `getLicense` once the SKU is resolved: the stock write, then
      the update of the selected licences, sold and stamped when the new stock is
      exactly 0 and only stamped otherwise. */
  function Allocate(ps: seq<Product>, ls: seq<License>, orderId: Id, sku: Sku, item: OrderedItem): Allocation
  {
    var selected := Selected(ls, sku, item);
    var newStock := sku.stock - item.quantity;
    var update := if newStock == 0 then SellTo(orderId) else StampOrder(orderId);
    Allocation(SetSkuStock(ps, sku.id, newStock), Inventory.UpdateLicenseMany(ls, IdsOf(selected), update), KeysOf(selected))
  }

  /** The keys `getLicense` returns are those of the licences it selected, in
      selection order: unsold licences of the resolved SKU, at most `quantity` of
      them when `quantity` is positive (exactly `quantity` when that many are
      available), and every unsold one otherwise. */
  lemma GetLicenseKeys(ps: seq<Product>, ls: seq<License>, orderId: Id, item: OrderedItem)
    requires AllocationSku(ps, item).Some?
    ensures var sku := AllocationSku(ps, item).value;
      var selected := Selected(ls, sku, item);
      var available := Matching(ls, UnsoldOfSku(sku.id));
      var keys := GetLicense(ps, ls, orderId, item).value.keys;
      && |keys| == |selected|
      && (forall k :: 0 <= k < |selected| ==>
            && selected[k] in ls && selected[k].productSku == sku.id && !selected[k].isSold
            && keys[k] == selected[k].licenseKey)
      && (item.quantity > 0 ==> |keys| == if item.quantity < |available| then item.quantity else |available|)
      && (item.quantity <= 0 ==> selected == available)
  {
  }

  /** The resolved SKU is embedded in a product, so the stock write reaches it:
      the SKU the positional `$` selects (the first SKU with that id in the first
      product embedding it) now holds `stock - quantity`, whatever its sign, and
      nothing else in any product changes. */
  lemma GetLicenseStock(ps: seq<Product>, ls: seq<License>, orderId: Id, item: OrderedItem)
    requires AllocationSku(ps, item).Some?
    ensures var sku := AllocationSku(ps, item).value;
      var a := GetLicense(ps, ls, orderId, item).value;
      && OwnerIndex(ps, sku.id).Some?
      && |a.products| == |ps|
      && (forall k :: 0 <= k < |ps| && OwnerIndex(ps, sku.id) != Some(k) ==> a.products[k] == ps[k])
      && var o := OwnerIndex(ps, sku.id).value;
         var j := SkuIndex(ps[o], sku.id).value;
         && a.products[o] == ps[o].(skuDetails := a.products[o].skuDetails)
         && |a.products[o].skuDetails| == |ps[o].skuDetails|
         && a.products[o].skuDetails[j] == ps[o].skuDetails[j].(stock := sku.stock - item.quantity)
         && forall m :: 0 <= m < |ps[o].skuDetails| && m != j ==> a.products[o].skuDetails[m] == ps[o].skuDetails[m]
  {
    var i := ProductIndex(ps, item.productId).value;
    var j := SkuCodeIndex(ps[i], item.skuCode).value;
    assert HasSku(ps[i], ps[i].skuDetails[j].id);
  }

  /** The licence update touches exactly the selected licences: each gets the order
      id and its key kept, and is marked sold exactly when the new stock is 0 (or
      it was sold already); every other licence is left as it was. */
  lemma GetLicenseLicences(ps: seq<Product>, ls: seq<License>, orderId: Id, item: OrderedItem)
    requires AllocationSku(ps, item).Some?
    ensures var sku := AllocationSku(ps, item).value;
      var ids := IdsOf(Selected(ls, sku, item));
      var a := GetLicense(ps, ls, orderId, item).value;
      && |a.licenses| == |ls|
      && (forall k :: 0 <= k < |ls| && ls[k].id !in ids ==> a.licenses[k] == ls[k])
      && (forall k :: 0 <= k < |ls| && ls[k].id in ids ==>
            && a.licenses[k].orderId == Some(orderId)
            && a.licenses[k].isSold == (sku.stock - item.quantity == 0 || ls[k].isSold)
            && a.licenses[k].licenseKey == ls[k].licenseKey)
  {
  }

  /** The stock write is not guarded: an item for more units than the SKU has left
      drives the stock below zero. */
  lemma GetLicenseMayDriveStockNegative()
    ensures var sku := Sku("s1", "Pro", 10, 365, false, "price_1", Some("c1"), 1);
      var ps := [Product("p1", "Suite", "prod_1", [sku], [], Unrated)];
      var item := OrderedItem("p1", "c1", 3, []);
      var a := GetLicense(ps, [], "o1", item);
      a.Ok? && a.value.products[0].skuDetails[0].stock == -2
  {
    var sku := Sku("s1", "Pro", 10, 365, false, "price_1", Some("c1"), 1);
    var ps := [Product("p1", "Suite", "prod_1", [sku], [], Unrated)];
    var item := OrderedItem("p1", "c1", 3, []);
    assert ProductIndex(ps, "p1") == Some(0);
    assert SkuCodeIndex(ps[0], "c1") == Some(0);
    assert AllocationSku(ps, item) == Some(sku);
    assert HasSku(ps[0], "s1") by { assert ps[0].skuDetails[0].id == "s1"; }
    assert OwnerIndex(ps, "s1").Some?;
  }

  /** Reaching zero stock marks only the selected licences sold: with two unsold
      licences and one unit in stock, an order for one unit leaves the other
      licence unsold although the SKU is now at zero. */
  lemma ZeroStockMayLeaveUnsoldLicense()
    ensures var sku := Sku("s1", "Pro", 10, 365, false, "price_1", Some("c1"), 1);
      var ps := [Product("p1", "Suite", "prod_1", [sku], [], Unrated)];
      var ls := [License("l1", "p1", "s1", "KEY-1", false, None), License("l2", "p1", "s1", "KEY-2", false, None)];
      var a := GetLicense(ps, ls, "o1", OrderedItem("p1", "c1", 1, []));
      && a.Ok? && a.value.products[0].skuDetails[0].stock == 0
      && a.value.licenses[0].isSold && !a.value.licenses[1].isSold
  {
    var sku := Sku("s1", "Pro", 10, 365, false, "price_1", Some("c1"), 1);
    var ps := [Product("p1", "Suite", "prod_1", [sku], [], Unrated)];
    var ls := [License("l1", "p1", "s1", "KEY-1", false, None), License("l2", "p1", "s1", "KEY-2", false, None)];
    var item := OrderedItem("p1", "c1", 1, []);
    assert ProductIndex(ps, "p1") == Some(0);
    assert SkuCodeIndex(ps[0], "c1") == Some(0);
    assert AllocationSku(ps, item) == Some(sku);
    assert HasSku(ps[0], "s1") by { assert ps[0].skuDetails[0].id == "s1"; }
    assert OwnerIndex(ps, "s1").Some?;
    var all := Matching(ls, UnsoldOfSku("s1"));
    assert all == ls by {
      assert Matcher(UnsoldOfSku("s1"))(ls[0]) && Matcher(UnsoldOfSku("s1"))(ls[1]);
      assert ls[1..][1..] == [];
      assert Filter(ls[1..][1..], Matcher(UnsoldOfSku("s1"))) == [];
    }
    assert Selected(ls, sku, item) == [ls[0]];
    assert IdsOf([ls[0]]) == {"l1"};
  }

  /** The allocation pass of the webhook: `Promise.all` over `getLicense` for
      every item of the order. Every call runs, so an item that fails does not
      keep the others from writing; a failing item fails in its lookups, before
      any write. The pass is rejected with the first failure. The items are
      taken one after another, each seeing the writes of the earlier ones. */
  datatype AllocationRun = AllocationRun(products: seq<Product>, licenses: seq<License>, failure: Option<Error>)

  function AllocateAll(ps: seq<Product>, ls: seq<License>, orderId: Id, items: seq<OrderedItem>): (r: AllocationRun)
    ensures r.failure.Some? ==> r.failure == Some(NotFound)
    ensures |items| == 0 ==> r == AllocationRun(ps, ls, None)
  {
    if |items| == 0 then AllocationRun(ps, ls, None)
    else
      var before := AllocateAll(ps, ls, orderId, items[..|items| - 1]);
      match GetLicense(before.products, before.licenses, orderId, items[|items| - 1])
      case Err(e) => AllocationRun(before.products, before.licenses, if before.failure.Some? then before.failure else Some(e))
      case Ok(a) => AllocationRun(a.products, a.licenses, before.failure)
  }

  /** One more item: a failing one writes nothing and leaves the pass failed; an
      allocated one adds exactly its own writes and keeps any earlier failure. */
  lemma AllocateAllStep(ps: seq<Product>, ls: seq<License>, orderId: Id, items: seq<OrderedItem>, i: nat)
    requires i < |items|
    ensures var before := AllocateAll(ps, ls, orderId, items[..i]);
      var after := AllocateAll(ps, ls, orderId, items[..i + 1]);
      var g := GetLicense(before.products, before.licenses, orderId, items[i]);
      && (g.Err? ==> after == AllocationRun(before.products, before.licenses, Some(NotFound)))
      && (g.Ok? ==> after == AllocationRun(g.value.products, g.value.licenses, before.failure))
  {
    assert items[..i + 1][..i] == items[..i];
    assert items[..i + 1][i] == items[i];
  }

  /** The allocation of one item changes nothing but SKU stock in the catalog. */
  lemma GetLicenseKeepsCatalog(ps: seq<Product>, ls: seq<License>, orderId: Id, item: OrderedItem)
    requires GetLicense(ps, ls, orderId, item).Ok?
    ensures SameButStocks(ps, GetLicense(ps, ls, orderId, item).value.products)
  {
    AllocateKeepsCatalog(ps, ls, orderId, AllocationSku(ps, item).value, item);
  }

  lemma AllocateKeepsCatalog(ps: seq<Product>, ls: seq<License>, orderId: Id, sku: Sku, item: OrderedItem)
    ensures SameButStocks(ps, Allocate(ps, ls, orderId, sku, item).products)
  {
    SetSkuStockKeepsCatalog(ps, sku.id, sku.stock - item.quantity);
  }

  /** An item resolves in a catalog exactly when it resolves in one that differs
      in stock only. */
  lemma ResolvesAlike(ps: seq<Product>, qs: seq<Product>, item: OrderedItem)
    requires SameButStocks(ps, qs)
    ensures AllocationSku(ps, item).None? <==> AllocationSku(qs, item).None?
  {
    SameButStocksLookups(ps, qs, item.productId, item.skuCode);
  }

  /** The whole pass changes nothing but SKU stock in the catalog. */
  lemma {:induction false} AllocateAllKeepsCatalog(ps: seq<Product>, ls: seq<License>, orderId: Id, items: seq<OrderedItem>)
    ensures SameButStocks(ps, AllocateAll(ps, ls, orderId, items).products)
  {
    if |items| == 0 {
      forall k | 0 <= k < |ps|
        ensures SameButStock(ps[k], ps[k])
      {
        assert ps[k].(skuDetails := ps[k].skuDetails) == ps[k];
      }
    } else {
      var init := items[..|items| - 1];
      AllocateAllKeepsCatalog(ps, ls, orderId, init);
      var before := AllocateAll(ps, ls, orderId, init);
      var g := GetLicense(before.products, before.licenses, orderId, items[|items| - 1]);
      if g.Ok? {
        GetLicenseKeepsCatalog(before.products, before.licenses, orderId, items[|items| - 1]);
        SameButStocksTrans(ps, before.products, g.value.products);
      }
    }
  }

  /** Every item's product and SKU code are found in the catalog. */
  predicate AllResolve(ps: seq<Product>, items: seq<OrderedItem>) {
    forall k :: 0 <= k < |items| ==> AllocationSku(ps, items[k]).Some?
  }

  lemma AllResolveSplit(ps: seq<Product>, items: seq<OrderedItem>)
    requires |items| > 0
    ensures AllResolve(ps, items) <==>
      AllResolve(ps, items[..|items| - 1]) && AllocationSku(ps, items[|items| - 1]).Some?
  {
    var init := items[..|items| - 1];
    assert forall k :: 0 <= k < |init| ==> init[k] == items[k];
  }

  /** The pass fails, with NotFound, exactly when some item's product or SKU code
      is missing from the catalog as it stood before the pass: allocating one
      item never makes the lookups of another fail or succeed. */
  lemma {:induction false} AllocateAllFails(ps: seq<Product>, ls: seq<License>, orderId: Id, items: seq<OrderedItem>)
    ensures AllocateAll(ps, ls, orderId, items).failure.None? <==> AllResolve(ps, items)
  {
    if |items| > 0 {
      var n := |items| - 1;
      var init := items[..n];
      AllocateAllFails(ps, ls, orderId, init);
      AllocateAllKeepsCatalog(ps, ls, orderId, init);
      var before := AllocateAll(ps, ls, orderId, init);
      AllocateAllStep(ps, ls, orderId, items, n);
      assert items[..n + 1] == items;
      ResolvesAlike(ps, before.products, items[n]);
      AllResolveSplit(ps, items);
    }
  }

  // ================================================================ webhook

  /** The parts of the provider's checkout session the webhook reads. */
  datatype Session = Session(id: Id, paymentStatus: string, userId: Option<Id>, customerEmail: Option<string>)

  datatype Event = Event(kind: string, session: Session)

  /** A line item as the provider lists it: the price's metadata (absent when the
      price is missing) and the quantity. */
  datatype PriceMetadata = PriceMetadata(productId: Id, skuCode: string)
  datatype ProviderLineItem = ProviderLineItem(price: Option<PriceMetadata>, quantity: int)

  const CompletedEvent := "checkout.session.completed"
  const Paid := "paid"

  predicate AllPriced(items: seq<ProviderLineItem>) {
    forall k :: 0 <= k < |items| ==> items[k].price.Some?
  }

  function Metadata(items: seq<ProviderLineItem>): (r: seq<ItemMetadata>)
    requires AllPriced(items)
    ensures |r| == |items|
    ensures forall k :: 0 <= k < |items| ==>
      r[k] == ItemMetadata(items[k].price.value.productId, items[k].price.value.skuCode, items[k].quantity)
  {
    seq(|items|, k requires 0 <= k < |items| =>
      ItemMetadata(items[k].price.value.productId, items[k].price.value.skuCode, items[k].quantity))
  }

  /** `createOrderObject(session)`: the listed line items (None when the provider
      returned nothing) become the order's items; a line without a price is an
      internal error. The order id is drawn at random in the source and is given
      here. */
  function OrderObject(s: Session, lineItems: Option<seq<ProviderLineItem>>, orderId: Id): (r: Result<OrderData>)
    ensures r.Ok? <==> lineItems.Some? && AllPriced(lineItems.value)
    ensures r.Err? ==> r.error == InternalServerError
    ensures r.Ok? ==>
      && r.value.checkoutSessionId == s.id && r.value.orderId == orderId
      && r.value.paymentStatus == s.paymentStatus && r.value.userId == s.userId
      && r.value.orderedItems == Metadata(lineItems.value)
  {
    if lineItems.None? || !AllPriced(lineItems.value) then Err(InternalServerError)
    else Ok(OrderData(orderId, s.userId, if s.customerEmail.Some? then s.customerEmail.value else "",
                      s.paymentStatus, s.id, Metadata(lineItems.value)))
  }

  /** `create(orderData)` (orders.service.ts lines 29-43). */
  function CreateOrder(os: seq<Order>, d: OrderData): (r: Result<seq<Order>>)
  {
    if SessionIndex(os, d.checkoutSessionId).Some? then Err(Conflict) else Ok(os + [NewOrder(d)])
  }

  /** Order creation is idempotent per session: a second order for a session is
      refused with Conflict and nothing is stored; otherwise exactly one order,
      pending and undelivered, is appended, and the session then has exactly one. */
  lemma {:induction false} CreateOrderOnce(os: seq<Order>, d: OrderData)
    ensures SessionCount(os, d.checkoutSessionId) > 0 <==> CreateOrder(os, d) == Err(Conflict)
    ensures CreateOrder(os, d).Ok? ==>
      && CreateOrder(os, d).value == os + [NewOrder(d)]
      && SessionCount(CreateOrder(os, d).value, d.checkoutSessionId) == 1
  {
    if CreateOrder(os, d).Ok? {
      var os' := os + [NewOrder(d)];
      assert os'[..|os'| - 1] == os;
    }
  }

  /** The result of one webhook delivery and the stores it leaves. */
  datatype Delivery = Delivery(result: Result<()>, stores: Stores)

  /** `webhook(rawBody, sig)` (orders.service.ts lines 216-276). The signature check
      is the provider library's and is given as its verdict; `lineItems` is what
      the provider lists for the session; `orderId` is the random order id. The
      confirmation mail is outbound I/O and is not modelled. */
  function Webhook(st: Stores, signatureValid: bool, ev: Event, lineItems: Option<seq<ProviderLineItem>>, orderId: Id): Delivery
  {
    if !signatureValid then Delivery(Err(BadRequest), st)
    else if ev.kind != CompletedEvent then Delivery(Ok(()), st)
    else
      match OrderObject(ev.session, lineItems, orderId)
      case Err(e) => Delivery(Err(e), st)
      case Ok(d) =>
        match CreateOrder(st.orders, d)
        case Err(e) => Delivery(Err(e), st)
        case Ok(orders) =>
          if ev.session.paymentStatus != Paid then Delivery(Ok(()), st.(orders := orders))
          else Settle(st, d, orders)
  }

  /** The paid branch once the order is stored: when the order is not completed,
      `getLicense` for each of its items, then `fullfillOrder` with the completed
      status and the order payload. */
  function Settle(st: Stores, d: OrderData, orders: seq<Order>): Delivery
  {
    var order := NewOrder(d);
    var items := if order.orderStatus != Completed then order.orderedItems else [];
    var run := AllocateAll(st.products, st.licenses, d.orderId, items);
    if run.failure.Some? then Delivery(Err(run.failure.value), Stores(run.products, run.licenses, orders))
    else Delivery(Ok(()), Stores(run.products, run.licenses, UpdateBySession(orders, d.checkoutSessionId, FulfilledOrder(d))))
  }

  /** Nothing is interpreted or stored unless the signature verifies, and an event
      of any other kind is acknowledged without a change. */
  lemma WebhookGuards(st: Stores, signatureValid: bool, ev: Event, lineItems: Option<seq<ProviderLineItem>>, orderId: Id)
    ensures !signatureValid ==> Webhook(st, signatureValid, ev, lineItems, orderId) == Delivery(Err(BadRequest), st)
    ensures signatureValid && ev.kind != CompletedEvent ==> Webhook(st, signatureValid, ev, lineItems, orderId) == Delivery(Ok(()), st)
  {
  }

  /** A completion event for a session that already has an order is refused with
      Conflict (from `create`) and changes nothing: no second order, no second
      allocation. */
  lemma WebhookDuplicateIsRefused(st: Stores, ev: Event, lineItems: Option<seq<ProviderLineItem>>, orderId: Id)
    requires ev.kind == CompletedEvent
    requires lineItems.Some? && AllPriced(lineItems.value)
    requires SessionCount(st.orders, ev.session.id) > 0
    ensures Webhook(st, true, ev, lineItems, orderId) == Delivery(Err(Conflict), st)
  {
    var d := OrderObject(ev.session, lineItems, orderId).value;
    CreateOrderOnce(st.orders, d);
  }

  /** A completion event for a new session stores exactly one pending order for
      it; an unpaid one stops there, a paid one goes on to settle that order. */
  lemma WebhookNewSession(st: Stores, ev: Event, lineItems: Option<seq<ProviderLineItem>>, orderId: Id)
    requires ev.kind == CompletedEvent
    requires lineItems.Some? && AllPriced(lineItems.value)
    requires SessionCount(st.orders, ev.session.id) == 0
    ensures var d := OrderObject(ev.session, lineItems, orderId).value;
      var out := Webhook(st, true, ev, lineItems, orderId);
      && SessionCount(st.orders + [NewOrder(d)], ev.session.id) == 1
      && (ev.session.paymentStatus != Paid ==> out == Delivery(Ok(()), st.(orders := st.orders + [NewOrder(d)])))
      && (ev.session.paymentStatus == Paid ==> out == Settle(st, d, st.orders + [NewOrder(d)]))
  {
    CreateOrderOnce(st.orders, OrderObject(ev.session, lineItems, orderId).value);
  }

  /** Settling a just-stored order allocates licences for every one of its items
      (the "not completed" guard always passes: the order was created pending).
      When the pass fails (`AllocateAllFails` says when), NotFound is returned,
      the writes of the other items stay and the order stays pending. Otherwise the order is now completed and
      delivered, its stored items carry no licence keys, and the session still
      has exactly one order. */
  lemma SettleNewOrder(st: Stores, d: OrderData)
    requires SessionCount(st.orders, d.checkoutSessionId) == 0
    ensures var out := Settle(st, d, st.orders + [NewOrder(d)]);
      var run := AllocateAll(st.products, st.licenses, d.orderId, NewOrder(d).orderedItems);
      && out.stores.products == run.products && out.stores.licenses == run.licenses
      && (run.failure.Some? ==> out == Delivery(Err(NotFound), Stores(run.products, run.licenses, st.orders + [NewOrder(d)])))
      && (run.failure.None? ==>
            && out.result == Ok(())
            && out.stores.orders == st.orders + [FulfilledOrder(d)]
            && SessionCount(out.stores.orders, d.checkoutSessionId) == 1
            && forall k :: 0 <= k < |d.orderedItems| ==> out.stores.orders[|st.orders|].orderedItems[k].licenses == [])
  {
    var orders := st.orders + [NewOrder(d)];
    var run := AllocateAll(st.products, st.licenses, d.orderId, NewOrder(d).orderedItems);
    assert NewOrder(d).orderStatus != Completed;
    var out := Settle(st, d, orders);
    assert out.stores.products == run.products && out.stores.licenses == run.licenses;
    if run.failure.None? {
      assert SessionIndex(orders, d.checkoutSessionId) == Some(|st.orders|);
      var fulfilled := UpdateBySession(orders, d.checkoutSessionId, FulfilledOrder(d));
      assert fulfilled == st.orders + [FulfilledOrder(d)];
      assert fulfilled[..|fulfilled| - 1] == st.orders;
    }
  }

  /** Delivering the same completion event again after it was processed is refused
      with Conflict and leaves the stores as the first delivery left them: one
      order for the session and one allocation pass. */
  lemma WebhookRedeliveryIsNoOp(st: Stores, ev: Event, lineItems: Option<seq<ProviderLineItem>>, orderId: Id, orderId': Id)
    requires ev.kind == CompletedEvent
    requires lineItems.Some? && AllPriced(lineItems.value)
    requires SessionCount(st.orders, ev.session.id) == 0
    ensures var first := Webhook(st, true, ev, lineItems, orderId);
      && SessionCount(first.stores.orders, ev.session.id) == 1
      && Webhook(first.stores, true, ev, lineItems, orderId') == Delivery(Err(Conflict), first.stores)
  {
    WebhookNewSession(st, ev, lineItems, orderId);
    var d := OrderObject(ev.session, lineItems, orderId).value;
    SettleNewOrder(st, d);
    var first := Webhook(st, true, ev, lineItems, orderId);
    WebhookDuplicateIsRefused(first.stores, ev, lineItems, orderId');
  }
}
