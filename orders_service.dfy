/** `OrdersService`: the operations behind the order endpoints and the payment
    provider's webhook, over the product and order repositories. Each method is
    proved to leave the repositories in the state, and to answer with the value,
    that the functions of `Fulfillment` describe. */
module OrdersServices {
  import opened Common
  import opened Inventory
  import opened OrderStore
  import opened ProductStore
  import opened Fulfillment

  class OrdersService {
    const productDb: ProductRepository
    const orderDb: OrdersRepository

    constructor(productDb: ProductRepository, orderDb: OrdersRepository)
      ensures this.productDb == productDb && this.orderDb == orderDb
    {
      this.productDb := productDb;
      this.orderDb := orderDb;
    }

    /** `create(orderData)`: at most one order per checkout session. */
    method Create(d: OrderData) returns (r: Result<Order>)
      modifies orderDb
      ensures CreateOrder(old(orderDb.orders), d).Err? ==> r == Err(Conflict) && orderDb.orders == old(orderDb.orders)
      ensures CreateOrder(old(orderDb.orders), d).Ok? ==>
        r == Ok(NewOrder(d)) && orderDb.orders == CreateOrder(old(orderDb.orders), d).value
    {
      var existing := orderDb.FindBySession(d.checkoutSessionId);
      if existing.Some? {
        return Err(Conflict);
      }
      var o := orderDb.Create(d);
      r := Ok(o);
    }

    /** The checks of one cart entry in the loop of `checkout`. The licence check
        is the corrected one (see `Fulfillment.CheckItem`). */
    method CheckEntry(item: CartItem) returns (r: Result<LineItem>)
      ensures r == CheckItem(productDb.products, productDb.licenses, item)
    {
      ItemAsWrittenOutcome(productDb.products, item);
      CheckItemOutcome(productDb.products, productDb.licenses, item);
      var product := productDb.FindBySku(item.skuId);
      if product.None? {
        return Err(NotFound);
      }
      var sku := product.value.skuDetails[SkuIndex(product.value, item.skuId).value];
      if sku.stock < item.quantity {
        return Err(BadRequest);
      }
      var availableItems := productDb.FindLicense(UnsoldOfSku(item.skuId), None);
      if |availableItems| == 0 {
        return Err(BadRequest);
      }
      if item.skuPriceId == "" {
        return Err(BadRequest);
      }
      r := Ok(LineItem(item.skuPriceId, item.quantity, sku.stock, if sku.stock > 1 then 1 else 0));
    }

    /** `checkout(body, user)`: every cart entry is checked against the stores, in
        order, and turned into a line item; the provider is asked for a session
        only when the resulting list is not empty. */
    method Checkout(cart: seq<CartItem>, provider: SessionOutcome) returns (r: Result<string>)
      ensures r == Fulfillment.Checkout(productDb.products, productDb.licenses, cart, provider)
    {
      ghost var outcomes := EntryOutcomes(productDb.products, productDb.licenses, cart);
      var lineItems: seq<LineItem> := [];
      var i := 0;
      while i < |cart|
        invariant 0 <= i <= |cart|
        invariant Collect(outcomes[..i]) == Ok(lineItems)
      {
        var line := CheckEntry(cart[i]);
        if line.Err? {
          CollectStops(outcomes, i);
          return Err(line.error);
        }
        assert outcomes[..i + 1][..i] == outcomes[..i];
        lineItems := lineItems + [line.value];
        i := i + 1;
      }
      assert outcomes[..i] == outcomes;
      if |lineItems| == 0 {
        return Err(BadRequest);
      }
      match provider
      case SessionCreated(url) => r := Ok(url);
      case PriceMissing => r := Err(BadRequest);
      case ProviderFailure => r := Err(InternalServerError);
    }

    /** The lookups that open `getLicense`: the product by id, then the first of
        its SKUs with the item's SKU code. */
    method ResolveSku(item: OrderedItem) returns (sku: Option<Sku>)
      ensures sku == AllocationSku(productDb.products, item)
    {
      var product := productDb.FindById(item.productId);
      if product.None? {
        return None;
      }
      var j := SkuCodeIndex(product.value, item.skuCode);
      if j.None? {
        return None;
      }
      sku := Some(product.value.skuDetails[j.value]);
    }

    /** `getLicense(orderId, item)` */
    method GetLicense(orderId: Id, item: OrderedItem) returns (r: Result<seq<string>>)
      modifies productDb
      ensures var g := Fulfillment.GetLicense(old(productDb.products), old(productDb.licenses), orderId, item);
        && (g.Err? ==> r == Err(g.error) && productDb.products == old(productDb.products) && productDb.licenses == old(productDb.licenses))
        && (g.Ok? ==> r == Ok(g.value.keys) && productDb.products == g.value.products && productDb.licenses == g.value.licenses)
    {
      var resolved := ResolveSku(item);
      if resolved.None? {
        return Err(NotFound);
      }
      var sku := resolved.value;
      var licenses := productDb.FindLicense(UnsoldOfSku(sku.id), Some(item.quantity));
      StoreAllocation(orderId, sku, item, licenses);
      r := Ok(KeysOf(licenses));
    }

    /** The writes that close `getLicense`: the new stock of the SKU, then the
        selected licences, sold and stamped when that stock is exactly 0 and
        only stamped otherwise. */
    method StoreAllocation(orderId: Id, sku: Sku, item: OrderedItem, licenses: seq<License>)
      requires licenses == Selected(productDb.licenses, sku, item)
      modifies productDb
      ensures Allocation(productDb.products, productDb.licenses, KeysOf(licenses))
        == Allocate(old(productDb.products), old(productDb.licenses), orderId, sku, item)
    {
      var newStock := sku.stock - item.quantity;
      var update := if newStock == 0 then SellTo(orderId) else StampOrder(orderId);
      productDb.SetStock(sku.id, newStock);
      productDb.UpdateLicenseMany(IdsOf(licenses), update);
    }

    /** `fullfillOrder(checkoutSessionId, update)` */
    method FullfillOrder(checkoutSessionId: Id, update: Order) returns (r: Option<Order>)
      modifies orderDb
      ensures orderDb.orders == UpdateBySession(old(orderDb.orders), checkoutSessionId, update)
      ensures r.Some? <==> SessionIndex(old(orderDb.orders), checkoutSessionId).Some?
    {
      r := orderDb.FindOneAndUpdate(checkoutSessionId, update);
    }

    /** `webhook(rawBody, sig)`: `signatureValid` is the provider library's verdict
        on the signature, `lineItems` what the provider lists for the session and
        `orderId` the random order id. Every item of a paid order is allocated,
        one after another, and the first failure is the answer. */
    method Webhook(signatureValid: bool, ev: Event, lineItems: Option<seq<ProviderLineItem>>, orderId: Id)
      returns (r: Result<()>)
      modifies productDb, orderDb
      ensures Fulfillment.Webhook(Stores(old(productDb.products), old(productDb.licenses), old(orderDb.orders)),
                                  signatureValid, ev, lineItems, orderId)
        == Delivery(r, Stores(productDb.products, productDb.licenses, orderDb.orders))
    {
      if !signatureValid {
        return Err(BadRequest);
      }
      if ev.kind != CompletedEvent {
        return Ok(());
      }
      var orderData := OrderObject(ev.session, lineItems, orderId);
      if orderData.Err? {
        return Err(orderData.error);
      }
      var d := orderData.value;
      var created := Create(d);
      if created.Err? {
        return Err(created.error);
      }
      if ev.session.paymentStatus == Paid {
        r := Settle(d, created.value);
      } else {
        r := Ok(());
      }
    }

    /** The allocation pass of the paid branch: `getLicense` for every item, as
        `Promise.all` runs them all, keeping the first failure. */
    method AllocateItems(orderId: Id, items: seq<OrderedItem>) returns (failure: Option<Error>)
      modifies productDb
      ensures AllocateAll(old(productDb.products), old(productDb.licenses), orderId, items)
        == AllocationRun(productDb.products, productDb.licenses, failure)
    {
      ghost var ps0, ls0 := productDb.products, productDb.licenses;
      failure := None;
      var i := 0;
      while i < |items|
        invariant 0 <= i <= |items|
        invariant AllocateAll(ps0, ls0, orderId, items[..i]) == AllocationRun(productDb.products, productDb.licenses, failure)
      {
        var keys := GetLicense(orderId, items[i]);
        AllocateAllStep(ps0, ls0, orderId, items, i);
        if keys.Err? && failure.None? {
          failure := Some(keys.error);
        }
        i := i + 1;
      }
      assert items[..i] == items;
    }

    /** The paid branch of `webhook` once `order` is stored for `d`: allocate the
        items of an order that is not completed, then mark the order completed
        and delivered. */
    method Settle(d: OrderData, order: Order) returns (r: Result<()>)
      requires order == NewOrder(d)
      modifies productDb, orderDb
      ensures Fulfillment.Settle(Stores(old(productDb.products), old(productDb.licenses), old(orderDb.orders)), d, old(orderDb.orders))
        == Delivery(r, Stores(productDb.products, productDb.licenses, orderDb.orders))
    {
      var items := if order.orderStatus != Completed then order.orderedItems else [];
      var failure := AllocateItems(d.orderId, items);
      if failure.Some? {
        return Err(failure.value);
      }
      var _ := FullfillOrder(d.checkoutSessionId, FulfilledOrder(d));
      r := Ok(());
    }
  }
}
