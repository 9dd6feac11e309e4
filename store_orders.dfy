/** The order tables behind OrderViewSet (store/views.py) and the order
    serializers' `create` methods (store/serializers.py). */
module StoreOrders {
  import opened Common
  import opened Users
  import opened StoreModels
  import opened StoreSerializers
  import opened StoreCarts

  /** Some item of the order is a product of the seller
      (`items__product__vendor=seller`). */
  predicate SellsInOrder(order: OrderId, items: seq<OrderItem>, products: seq<Product>, seller: nat) {
    exists it :: it in items && it.order == order
                 && ProductById(products, it.product).Some?
                 && ProductById(products, it.product).value.vendor == Some(seller)
  }

  /** Whether OrderViewSet.get_queryset lets the requester reach the order:
      a requester with a customer profile reaches its own orders; otherwise
      one with a seller profile reaches the orders with one of its
      products; anybody else reaches none. */
  predicate CanSeeOrder(requester: Requester, o: Order, items: seq<OrderItem>, products: seq<Product>) {
    match requester.customerProfile
    case Some(c) => o.customer == c
    case None =>
      match requester.sellerProfile
      case Some(s) => SellsInOrder(o.id, items, products, s)
      case None => false
  }

  /** OrderViewSet.get_queryset. */
  function VisibleOrders(requester: Requester, orders: seq<Order>, items: seq<OrderItem>, products: seq<Product>): (r: seq<Order>)
    ensures requester.customerProfile.Some? ==>
              forall o :: o in r <==> o in orders && o.customer == requester.customerProfile.value
    ensures requester.customerProfile.None? && requester.sellerProfile.Some? ==>
              forall o :: o in r <==> o in orders && SellsInOrder(o.id, items, products, requester.sellerProfile.value)
    ensures requester.customerProfile.None? && requester.sellerProfile.None? ==> r == []
  {
    var r := Filter(orders, (o: Order) => CanSeeOrder(requester, o, items, products));
    if requester.customerProfile.None? && requester.sellerProfile.None? then
      FilterNone(orders, (o: Order) => CanSeeOrder(requester, o, items, products));
      r
    else r
  }

  /** The lookup behind update, delete and retrieve reaches exactly the
      stored orders `get_queryset` lists. */
  lemma CanSeeOrderMatchesQueryset(requester: Requester, o: Order, orders: seq<Order>,
                                   items: seq<OrderItem>, products: seq<Product>)
    requires o in orders
    ensures CanSeeOrder(requester, o, items, products) <==> o in VisibleOrders(requester, orders, items, products)
  {
  }

  /** Each reachable order is listed once, however many of the seller's
      products it holds (the query's `.distinct()`). */
  lemma VisibleOrdersOnce(requester: Requester, orders: seq<Order>, items: seq<OrderItem>, products: seq<Product>)
    requires Distinct(orders)
    ensures Distinct(VisibleOrders(requester, orders, items, products))
  {
    FilterKeepsDistinct(orders, (o: Order) => CanSeeOrder(requester, o, items, products));
  }

  /** One entry of OrderSerializer's validated `items`: a product instance
      and a quantity. */
  datatype OrderLine = OrderLine(product: Product, quantity: int)

  /** The rows OrderSerializer.create inserts for its lines: each copies the
      product and quantity of its line and the product's current price. */
  function LineItems(lines: seq<OrderLine>, order: OrderId, firstId: nat): (r: seq<OrderItem>)
    ensures |r| == |lines|
    ensures forall i :: 0 <= i < |lines| ==>
              && r[i].order == order && r[i].id == firstId + i
              && r[i].product == lines[i].product.id && r[i].quantity == lines[i].quantity
              && r[i].unitPrice == lines[i].product.unitPrice
  {
    seq(|lines|, i requires 0 <= i < |lines| =>
      OrderItem(firstId + i, order, lines[i].product.id, lines[i].quantity, lines[i].product.unitPrice))
  }

  datatype OrderError = CustomerProfileMissing

  datatype ConvertOutcome =
    | ConvertForbidden
    | CartNotFound
    | CartEmpty
    | NoCustomerProfile
    | OrderInvalid
    | OrderPlaced(order: Order)

  datatype DeleteOrderOutcome = OrderMissing | OrderProtected | OrderDeleted

  datatype UpdateOutcome = UpdateForbidden | UpdateNotFound | StatusUpdated(order: Order)

  /** The loop of OrderViewSet.create that turns the cart's items into
      order items: same product and quantity, the product's current price. */
  method PriceCartItems(cartItems: seq<CartItem>, products: seq<Product>, order: OrderId, firstId: nat)
    returns (created: seq<OrderItem>)
    requires ProductsExist(cartItems, products)
    ensures created == PricedItems(cartItems, products, order, firstId)
  {
    created := [];
    var i := 0;
    while i < |cartItems|
      invariant 0 <= i <= |cartItems|
      invariant created == PricedItems(cartItems[..i], products, order, firstId)
    {
      assert cartItems[i] in cartItems;
      var price := ProductById(products, cartItems[i].product).value.unitPrice;
      created := created + [OrderItem(firstId + i, order, cartItems[i].product, cartItems[i].quantity, price)];
      i := i + 1;
    }
    assert cartItems[..|cartItems|] == cartItems;
  }

  /** The order tables: ids below the counters, and every item belongs to a
      stored order (the foreign key that PROTECT keeps). */
  class Orders {
    var orders: seq<Order>
    var items: seq<OrderItem>
    var nextOrderId: nat
    var nextItemId: nat

    ghost predicate Valid()
      reads this
    {
      && (forall o :: o in orders ==> o.id < nextOrderId)
      && (forall it :: it in items ==> it.order < nextOrderId && it.id < nextItemId)
      && (forall it :: it in items ==> exists o :: o in orders && o.id == it.order)
    }

    constructor ()
      ensures Valid()
      ensures orders == [] && items == [] && nextOrderId == 0 && nextItemId == 0
    {
      orders := [];
      items := [];
      nextOrderId := 0;
      nextItemId := 0;
    }

    /** CreateOrderSerializer.create: the customer is the requester's
        customer profile; without one the creation is refused. The order
        takes the status defaults. */
    method CreateOrder(customerProfile: Option<nat>, address: string) returns (r: Result<Order, OrderError>)
      requires Valid()
      modifies this
      ensures Valid()
      ensures items == old(items) && nextItemId == old(nextItemId)
      ensures customerProfile.None? ==> r == Err(CustomerProfileMissing) && orders == old(orders)
                                        && nextOrderId == old(nextOrderId)
      ensures customerProfile.Some? ==>
                && r == Ok(NewOrder(old(nextOrderId), customerProfile.value, address))
                && orders == old(orders) + [r.value]
    {
      if customerProfile.None? {
        return Err(CustomerProfileMissing);
      }
      var o := NewOrder(nextOrderId, customerProfile.value, address);
      orders := orders + [o];
      nextOrderId := nextOrderId + 1;
      r := Ok(o);
    }

    /** OrderSerializer.create: one order, then one item per line at the
        product's current price. The two statuses are writable fields of the
        serializer: a status the body gives is stored, one it omits takes the
        column default. */
    method CreateNested(customer: nat, address: string, payment: Option<PaymentStatus>,
                        delivery: Option<DeliveryStatus>, lines: seq<OrderLine>) returns (order: Order)
      requires Valid()
      modifies this
      ensures Valid()
      ensures var initial := NewOrder(old(nextOrderId), customer, address);
              order == initial.(payment := payment.GetOr(initial.payment), delivery := delivery.GetOr(initial.delivery))
      ensures payment.None? && delivery.None? ==> order == NewOrder(old(nextOrderId), customer, address)
      ensures orders == old(orders) + [order]
      ensures items == old(items) + LineItems(lines, order.id, old(nextItemId))
    {
      var initial := NewOrder(nextOrderId, customer, address);
      order := initial.(payment := payment.GetOr(initial.payment), delivery := delivery.GetOr(initial.delivery));
      orders := orders + [order];
      nextOrderId := nextOrderId + 1;
      ghost var base := items;
      var firstId := nextItemId;
      var i := 0;
      while i < |lines|
        invariant 0 <= i <= |lines|
        invariant items == base + LineItems(lines[..i], order.id, firstId)
        invariant nextItemId == firstId + i
        invariant orders == old(orders) + [order] && nextOrderId == order.id + 1
        invariant Valid()
      {
        var it := OrderItem(nextItemId, order.id, lines[i].product.id, lines[i].quantity, lines[i].product.unitPrice);
        assert LineItems(lines[..i + 1], order.id, firstId) == LineItems(lines[..i], order.id, firstId) + [it];
        assert order in orders;
        items := items + [it];
        nextItemId := nextItemId + 1;
        i := i + 1;
      }
      assert lines[..|lines|] == lines;
    }

    /** OrderViewSet.create with the order data checked as the conversion
        intends (the serializer as written refuses every conversion; see
        StoreSerializers.ViewOrderDataAlwaysRejected). The guards run in the
        source's order; on success the order is created with the status
        defaults, every cart item becomes one order item at the product's
        current price, and the cart is deleted with its items. */
    method ConvertCart(requester: Requester, cartId: Option<CartId>, address: Option<string>,
                       carts: Carts, products: seq<Product>)
      returns (outcome: ConvertOutcome)
      requires Valid() && carts.Valid()
      requires ProductsExist(carts.items, products)
      modifies this, carts
      ensures Valid() && carts.Valid()
      ensures !requester.authenticated ==> outcome == ConvertForbidden
      ensures requester.authenticated && (cartId.None? || !old(carts.CartExists(cartId.value))) ==>
                outcome == CartNotFound
      ensures requester.authenticated && cartId.Some? && old(carts.CartExists(cartId.value)) ==>
                var cartItems := CartItemsOf(old(carts.items), cartId.value);
                && (cartItems == [] ==> outcome == CartEmpty)
                && (cartItems != [] && requester.customerProfile.None? ==> outcome == NoCustomerProfile)
                && (cartItems != [] && requester.customerProfile.Some? && !OrderFieldsAccepted(address) ==>
                      outcome == OrderInvalid)
                && (cartItems != [] && requester.customerProfile.Some? && OrderFieldsAccepted(address) ==>
                      outcome.OrderPlaced?)
      ensures !outcome.OrderPlaced? ==>
                && orders == old(orders) && items == old(items)
                && carts.carts == old(carts.carts) && carts.items == old(carts.items)
      ensures outcome.OrderPlaced? ==>
                var cid := cartId.value;
                var cartItems := CartItemsOf(old(carts.items), cid);
                && outcome.order == NewOrder(old(nextOrderId), requester.customerProfile.value, Strip(address.value))
                && orders == old(orders) + [outcome.order]
                && items == old(items) + PricedItems(cartItems, products, outcome.order.id, old(nextItemId))
                && CalculateTotalAmount(outcome.order.id, items) == CartTotal(cartItems, products)
                && carts.carts == Filter(old(carts.carts), (c: Cart) => c.id != cid)
                && carts.items == Filter(old(carts.items), (it: CartItem) => it.cart != cid)
    {
      if !requester.authenticated {
        return ConvertForbidden;
      }
      if cartId.None? || !carts.CartExists(cartId.value) {
        return CartNotFound;
      }
      var cid := cartId.value;
      var cartItems := CartItemsOf(carts.items, cid);
      if cartItems == [] {
        return CartEmpty;
      }
      if requester.customerProfile.None? {
        return NoCustomerProfile;
      }
      if !OrderFieldsAccepted(address) {
        return OrderInvalid;
      }
      var created := CreateOrder(requester.customerProfile, Strip(address.value));
      var order := created.value;
      assert order in orders;
      var lines := PriceCartItems(cartItems, products, order.id, nextItemId);
      ghost var oldItems := items;
      BulkCreate(lines);
      FreshOrderTotal(order.id, oldItems, lines);
      PricedItemsKeepTotal(cartItems, products, order.id, old(nextItemId));
      var _ := carts.DeleteCart(cid);
      outcome := OrderPlaced(order);
    }

    /** `OrderItem.objects.bulk_create`: the rows are appended as given. */
    method BulkCreate(created: seq<OrderItem>)
      requires Valid()
      requires forall i :: 0 <= i < |created| ==> created[i].id == nextItemId + i
      requires forall it :: it in created ==> it.order < nextOrderId && exists o :: o in orders && o.id == it.order
      modifies this
      ensures Valid()
      ensures items == old(items) + created && nextItemId == old(nextItemId) + |created|
      ensures orders == old(orders) && nextOrderId == old(nextOrderId)
    {
      items := items + created;
      nextItemId := nextItemId + |created|;
    }

    /** Deleting an order: refused (ProtectedError) while an order item
        (OrderItem.order is PROTECT) or an order notification (whose order
        is PROTECT; their order ids are `referenced`) points at it. */
    method DeleteOrder(id: OrderId, referenced: set<OrderId>) returns (outcome: DeleteOrderOutcome)
      requires Valid()
      modifies this
      ensures Valid()
      ensures items == old(items) && nextOrderId == old(nextOrderId) && nextItemId == old(nextItemId)
      ensures outcome == OrderMissing <==> forall o :: o in old(orders) ==> o.id != id
      ensures outcome == OrderProtected ==> (exists it :: it in items && it.order == id) || id in referenced
      ensures outcome == OrderDeleted ==>
                && (forall it :: it in items ==> it.order != id) && id !in referenced
                && orders == Filter(old(orders), (o: Order) => o.id != id)
      ensures outcome != OrderDeleted ==> orders == old(orders)
    {
      var k := FindIndex(orders, (o: Order) => o.id == id);
      if k.None? {
        return OrderMissing;
      }
      assert orders[k.value] in orders;
      var k2 := FindIndex(items, (it: OrderItem) => it.order == id);
      if k2.Some? || id in referenced {
        if k2.Some? {
          assert items[k2.value] in items;
        }
        return OrderProtected;
      }
      assert forall it :: it in items ==> it.order != id;
      orders := Filter(orders, (o: Order) => o.id != id);
      outcome := OrderDeleted;
    }

    /** OrderViewSet.update_status: a partial update of the two statuses of
        an order the requester can reach; a status not sent keeps its value,
        and nothing else changes. */
    method UpdateStatus(requester: Requester, id: OrderId, products: seq<Product>,
                        payment: Option<PaymentStatus>, delivery: Option<DeliveryStatus>)
      returns (outcome: UpdateOutcome)
      requires Valid()
      modifies this
      ensures Valid()
      ensures items == old(items) && nextOrderId == old(nextOrderId) && nextItemId == old(nextItemId)
      ensures outcome == UpdateForbidden <==> !requester.authenticated
      ensures requester.authenticated ==>
                (outcome == UpdateNotFound <==>
                   forall o :: o in old(orders) ==> !(o.id == id && CanSeeOrder(requester, o, items, products)))
      ensures !outcome.StatusUpdated? ==> orders == old(orders)
      ensures outcome.StatusUpdated? ==>
                exists k :: 0 <= k < |old(orders)| && old(orders)[k].id == id
                  && CanSeeOrder(requester, old(orders)[k], items, products)
                  && outcome.order == old(orders)[k].(payment := payment.GetOr(old(orders)[k].payment),
                                                      delivery := delivery.GetOr(old(orders)[k].delivery))
                  && orders == old(orders)[k := outcome.order]
    {
      if !requester.authenticated {
        return UpdateForbidden;
      }
      var its := items;
      var k := FindIndex(orders, (o: Order) => o.id == id && CanSeeOrder(requester, o, its, products));
      if k.None? {
        assert forall o :: o in orders ==> !(o.id == id && CanSeeOrder(requester, o, items, products)) by {
          forall o | o in orders ensures !(o.id == id && CanSeeOrder(requester, o, its, products)) {
            var j :| 0 <= j < |orders| && orders[j] == o;
          }
        }
        return UpdateNotFound;
      }
      var o := orders[k.value];
      assert o in orders;
      var updated := o.(payment := payment.GetOr(o.payment), delivery := delivery.GetOr(o.delivery));
      orders := orders[k.value := updated];
      assert forall it :: it in items ==> exists o2 :: o2 in orders && o2.id == it.order by {
        forall it | it in items ensures exists o2 :: o2 in orders && o2.id == it.order {
          var o1 :| o1 in old(orders) && o1.id == it.order;
          var j :| 0 <= j < |old(orders)| && old(orders)[j] == o1;
          assert orders[j].id == o1.id;
          assert orders[j] in orders;
        }
      }
      outcome := StatusUpdated(updated);
    }
  }
}
