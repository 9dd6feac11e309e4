/** The admin site's display helpers and bulk actions (store/admin.py). */
module StoreAdmin {
  import opened Common
  import opened StoreModels
  import opened StoreSerializers
  import opened StoreCatalog
  import opened StoreOrders

  /** ProductAdmin.inventory_status. */
  function InventoryStatus(inventory: int): (s: string)
    ensures s == "Low" <==> inventory < 10
    ensures s == "OK" <==> inventory >= 10
  {
    if inventory < 10 then "Low" else "OK"
  }

  /** What the rating column shows: a dash, or the average (its one-place
      formatting is left out). */
  datatype RatingCell = Dash | Shown(summary: RatingSummary)

  /** ProductAdmin.average_rating: the dash when the average is absent or
      zero (both falsy), the average otherwise. */
  function RatingColumn(pid: ProductId, reviews: seq<Review>): (c: RatingCell)
    ensures c == Dash <==> AverageIsZeroOrAbsent(ProductAverageRating(pid, reviews))
    ensures c.Shown? ==> c.summary == ProductAverageRating(pid, reviews) && c.summary.Ratings?
  {
    var s := ProductAverageRating(pid, reviews);
    if AverageIsZeroOrAbsent(s) then Dash else Shown(s)
  }

  /** A product without rated reviews shows the dash. */
  lemma UnratedProductShowsDash(pid: ProductId, reviews: seq<Review>)
    requires forall r :: r in reviews ==> r.product != pid
    ensures RatingColumn(pid, reviews) == Dash
  {
    UnreviewedProduct(pid, reviews);
  }

  /** OrderAdmin.colored_payment_status. */
  function PaymentColour(s: PaymentStatus): (c: string)
    ensures c == "green" <==> s == PaymentComplete
    ensures c == "red" <==> s != PaymentComplete
  {
    if PaymentCode(s) == "C" then "green" else "red"
  }

  /** OrderAdmin.colored_delivery_status. */
  function DeliveryColour(s: DeliveryStatus): (c: string)
    ensures c == "green" <==> s == Delivered
    ensures c == "orange" <==> s != Delivered
  {
    if DeliveryCode(s) == "DELIVERED" then "green" else "orange"
  }

  // ---------------------------------------------------------------------
  // clear_inventory
  // ---------------------------------------------------------------------

  /** The products after `queryset.update(inventory=0)` on the selection. */
  function InventoryCleared(products: seq<Product>, selected: set<ProductId>): (r: seq<Product>)
    ensures |r| == |products|
    ensures forall i :: 0 <= i < |products| ==>
              && (products[i].id in selected ==> r[i] == products[i].(inventory := 0))
              && (products[i].id !in selected ==> r[i] == products[i])
  {
    seq(|products|, i requires 0 <= i < |products| =>
      if products[i].id in selected then products[i].(inventory := 0) else products[i])
  }

  /** Clearing twice is clearing once. */
  lemma InventoryClearedIdempotent(products: seq<Product>, selected: set<ProductId>)
    ensures InventoryCleared(InventoryCleared(products, selected), selected) == InventoryCleared(products, selected)
  {
  }

  function Selected(selected: set<nat>): Product -> bool {
    (p: Product) => p.id in selected
  }

  /** ProductAdmin.clear_inventory, one bulk update: every selected
      product's inventory becomes 0, every other product is untouched, and
      the count reported is the number of selected rows. */
  method ClearInventory(catalog: Catalog, selected: set<ProductId>) returns (updated: nat)
    requires catalog.Valid()
    modifies catalog
    ensures catalog.Valid()
    ensures catalog.products == InventoryCleared(old(catalog.products), selected)
    ensures catalog.categories == old(catalog.categories) && catalog.nextProductId == old(catalog.nextProductId)
    ensures updated == Count(old(catalog.products), Selected(selected))
  {
    var before := catalog.products;
    catalog.products := InventoryCleared(before, selected);
    updated := Count(before, Selected(selected));
  }

  // ---------------------------------------------------------------------
  // mark_as_completed
  // ---------------------------------------------------------------------

  /** The orders after `queryset.update(payment_status="C",
      delivery_status="DELIVERED")` on the selection. */
  function MarkedCompleted(orders: seq<Order>, selected: set<OrderId>): (r: seq<Order>)
    ensures |r| == |orders|
    ensures forall i :: 0 <= i < |orders| ==>
              && (orders[i].id in selected ==>
                    r[i] == orders[i].(payment := PaymentComplete, delivery := Delivered))
              && (orders[i].id !in selected ==> r[i] == orders[i])
  {
    seq(|orders|, i requires 0 <= i < |orders| =>
      if orders[i].id in selected then orders[i].(payment := PaymentComplete, delivery := Delivered)
      else orders[i])
  }

  function SelectedOrder(selected: set<nat>): Order -> bool {
    (o: Order) => o.id in selected
  }

  /** OrderAdmin.mark_as_completed, one bulk update: exactly the selected
      orders become paid and delivered, and the count reported is the number
      of selected rows. */
  method MarkAsCompleted(orders: Orders, selected: set<OrderId>) returns (updated: nat)
    requires orders.Valid()
    modifies orders
    ensures orders.Valid()
    ensures orders.orders == MarkedCompleted(old(orders.orders), selected)
    ensures orders.items == old(orders.items)
    ensures orders.nextOrderId == old(orders.nextOrderId) && orders.nextItemId == old(orders.nextItemId)
    ensures updated == Count(old(orders.orders), SelectedOrder(selected))
  {
    var before := orders.orders;
    orders.orders := MarkedCompleted(before, selected);
    forall i | 0 <= i < |before| ensures orders.orders[i].id == before[i].id {
    }
    OrderIdsKept(orders.items, before, orders.orders, orders.nextOrderId);
    updated := Count(before, SelectedOrder(selected));
  }

  /** The update keeps every order's id, so the items' orders still exist. */
  lemma MarkedCompletedKeepsIds(orders: seq<Order>, selected: set<OrderId>)
    ensures var r := MarkedCompleted(orders, selected);
            && (forall o :: o in orders ==> exists o2 :: o2 in r && o2.id == o.id)
            && (forall o2 :: o2 in r ==> exists o :: o in orders && o.id == o2.id)
  {
    var r := MarkedCompleted(orders, selected);
    forall o | o in orders ensures exists o2 :: o2 in r && o2.id == o.id {
      var j :| 0 <= j < |orders| && orders[j] == o;
      assert r[j] in r;
    }
    forall o2 | o2 in r ensures exists o :: o in orders && o.id == o2.id {
      var j :| 0 <= j < |r| && r[j] == o2;
      assert orders[j] in orders;
    }
  }

  // ---------------------------------------------------------------------
  // save_formset
  // ---------------------------------------------------------------------

  /** Orders rewritten in place with their ids kept still bound the ids
      below the counter and still hold every order an item points at. */
  lemma OrderIdsKept(items: seq<OrderItem>, before: seq<Order>, after: seq<Order>, bound: nat)
    requires |after| == |before|
    requires forall i :: 0 <= i < |before| ==> after[i].id == before[i].id
    requires forall o :: o in before ==> o.id < bound
    requires forall it :: it in items ==> exists o :: o in before && o.id == it.order
    ensures forall o :: o in after ==> o.id < bound
    ensures forall it :: it in items ==> exists o :: o in after && o.id == it.order
  {
    forall o | o in after ensures o.id < bound {
      var j :| 0 <= j < |after| && after[j] == o;
      assert before[j] in before;
    }
    forall it | it in items ensures exists o :: o in after && o.id == it.order {
      var o :| o in before && o.id == it.order;
      var j :| 0 <= j < |before| && before[j] == o;
      assert after[j] in after;
    }
  }

  /** An order item as the inline formset hands it over: its product
      instance and a price that may be missing. */
  datatype FormsetItem = FormsetItem(id: nat, order: OrderId, product: Product, quantity: int, unitPrice: Option<int>)

  /** OrderAdmin.save_formset: each instance is saved in order; a missing
      or zero price (`not instance.unit_price`) is filled from the product's
      current price, and any other price is kept. */
  method SaveFormset(instances: seq<FormsetItem>) returns (saved: seq<OrderItem>)
    ensures |saved| == |instances|
    ensures forall i :: 0 <= i < |instances| ==>
              && saved[i].id == instances[i].id && saved[i].order == instances[i].order
              && saved[i].product == instances[i].product.id && saved[i].quantity == instances[i].quantity
              && (Truthy(instances[i].unitPrice) ==> saved[i].unitPrice == instances[i].unitPrice.value)
              && (!Truthy(instances[i].unitPrice) ==> saved[i].unitPrice == instances[i].product.unitPrice)
  {
    saved := [];
    var i := 0;
    while i < |instances|
      invariant 0 <= i <= |instances|
      invariant |saved| == i
      invariant forall j :: 0 <= j < i ==>
                  && saved[j].id == instances[j].id && saved[j].order == instances[j].order
                  && saved[j].product == instances[j].product.id && saved[j].quantity == instances[j].quantity
                  && (Truthy(instances[j].unitPrice) ==> saved[j].unitPrice == instances[j].unitPrice.value)
                  && (!Truthy(instances[j].unitPrice) ==> saved[j].unitPrice == instances[j].product.unitPrice)
    {
      var f := instances[i];
      var price := if !Truthy(f.unitPrice) then f.product.unitPrice else f.unitPrice.value;
      saved := saved + [OrderItem(f.id, f.order, f.product.id, f.quantity, price)];
      i := i + 1;
    }
  }
}
