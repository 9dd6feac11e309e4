/** The cart tables behind CartViewSet and CartItemViewSet (store/views.py)
    and CartItemSerializer.create (store/serializers.py). */
module StoreCarts {
  import opened Common
  import opened StoreModels
  import opened StoreSerializers

  /** The items of one cart (`cart.items`). */
  function CartItemsOf(items: seq<CartItem>, cart: CartId): (r: seq<CartItem>)
    ensures forall it :: it in r <==> it in items && it.cart == cart
    ensures |r| <= |items|
  {
    Filter(items, (it: CartItem) => it.cart == cart)
  }

  /** The position of the item of `product` in `cart`, if there is one
      (`CartItem.objects.get(cart_id=..., product_id=...)`). */
  function FindCartItem(items: seq<CartItem>, cart: CartId, product: int): (r: Option<nat>)
    ensures r.Some? ==> r.value < |items| && items[r.value].cart == cart && items[r.value].product == product
    ensures r.None? <==> forall it :: it in items ==> !(it.cart == cart && it.product == product)
  {
    var k := FindIndex(items, (it: CartItem) => it.cart == cart && it.product == product);
    if k.None? then
      assert forall it :: it in items ==> !(it.cart == cart && it.product == product) by {
        forall it | it in items ensures !(it.cart == cart && it.product == product) {
          var i :| 0 <= i < |items| && items[i] == it;
        }
      }
      None
    else k
  }

  /** The quantity the view reads: `int(request.data.get("quantity", 1))`. */
  function RequestedQuantity(q: QuantityInput): int
    requires !q.QuantityMalformed?
  {
    if q.QuantityInt? then q.n else 1
  }

  datatype AddOutcome =
    | QuantityNotInteger
    | ItemMerged(item: CartItem)
    | MergeRejected
    | ItemInvalid
    | CartIdMissing
    | ReferenceMissing
    | ItemCreated(item: CartItem)

  /** The cart tables: every (cart, product) pair has at most one item,
      every item belongs to an existing cart (the foreign key) and item ids
      are below `nextItemId`. */
  class Carts {
    var carts: seq<Cart>
    var items: seq<CartItem>
    var nextItemId: nat

    ghost predicate Valid()
      reads this
    {
      && OneItemPerCartProduct(items)
      && (forall it :: it in items ==> exists c :: c in carts && c.id == it.cart)
      && (forall i :: 0 <= i < |items| ==> items[i].id < nextItemId)
    }

    constructor ()
      ensures Valid()
      ensures carts == [] && items == [] && nextItemId == 0
    {
      carts := [];
      items := [];
      nextItemId := 0;
    }

    predicate CartExists(cart: CartId)
      reads this
    {
      exists c :: c in carts && c.id == cart
    }

    /** CartItemSerializer.create: a falsy cart id from the context is
        refused; otherwise one row is inserted, which the database refuses
        when the cart or the product does not exist or the pair already has
        an item. */
    method CreateItem(cartContext: Option<CartId>, product: int, quantity: int, products: seq<Product>)
      returns (outcome: AddOutcome)
      requires Valid()
      modifies this
      ensures Valid()
      ensures carts == old(carts)
      ensures cartContext.None? ==> outcome == CartIdMissing
      ensures cartContext.Some? ==>
                var cart := cartContext.value;
                if CartExists(cart) && product >= 0 && ProductById(products, product).Some?
                   && FindCartItem(old(items), cart, product).None?
                then outcome == ItemCreated(CartItem(old(nextItemId), cart, product, quantity))
                     && items == old(items) + [outcome.item]
                else outcome == ReferenceMissing
      ensures !outcome.ItemCreated? ==> items == old(items) && nextItemId == old(nextItemId)
    {
      if cartContext.None? {
        return CartIdMissing;
      }
      var cart := cartContext.value;
      var exists_ := exists c :: c in carts && c.id == cart;
      if !(exists_ && product >= 0 && ProductById(products, product).Some?
           && FindCartItem(items, cart, product).None?) {
        return ReferenceMissing;
      }
      var item := CartItem(nextItemId, cart, product, quantity);
      items := items + [item];
      nextItemId := nextItemId + 1;
      outcome := ItemCreated(item);
    }

    /** CartItemViewSet.create. A quantity that is not an integer fails
        first. An existing item of the product in the cart has the requested
        quantity (default 1) added to it, unchecked, and no row is created;
        only the column's range (0 to 32767) can refuse the sum. Otherwise
        the serializer validates the raw body (here `quantity` is required
        and at least 1) and creates one row. */
    method AddItem(cart: CartId, productId: Option<int>, quantity: QuantityInput, products: seq<Product>)
      returns (outcome: AddOutcome)
      requires Valid()
      modifies this
      ensures Valid()
      ensures carts == old(carts)
      ensures quantity.QuantityMalformed? ==> outcome == QuantityNotInteger && items == old(items)
      ensures !quantity.QuantityMalformed? && productId.Some? && FindCartItem(old(items), cart, productId.value).Some? ==>
                var k := FindCartItem(old(items), cart, productId.value).value;
                var sum := old(items)[k].quantity + RequestedQuantity(quantity);
                if 0 <= sum <= MaxSmallInt
                then outcome == ItemMerged(old(items)[k].(quantity := sum))
                     && items == old(items)[k := outcome.item]
                else outcome == MergeRejected && items == old(items)
      ensures !quantity.QuantityMalformed? && (productId.None? || FindCartItem(old(items), cart, productId.value).None?) ==>
                if ValidateCartItem(productId, quantity).None?
                then outcome == ItemInvalid && items == old(items)
                else if CartExists(cart) && productId.value >= 0 && ProductById(products, productId.value).Some?
                then outcome == ItemCreated(CartItem(old(nextItemId), cart, productId.value, quantity.n))
                     && items == old(items) + [outcome.item]
                else outcome == ReferenceMissing && items == old(items)
      ensures |items| == |old(items)| + (if outcome.ItemCreated? then 1 else 0)
    {
      if quantity.QuantityMalformed? {
        return QuantityNotInteger;
      }
      var q := RequestedQuantity(quantity);
      var k := if productId.Some? then FindCartItem(items, cart, productId.value) else None;
      if k.Some? {
        var sum := items[k.value].quantity + q;
        if 0 <= sum <= MaxSmallInt {
          var merged := items[k.value].(quantity := sum);
          items := items[k.value := merged];
          return ItemMerged(merged);
        }
        return MergeRejected;
      }
      if ValidateCartItem(productId, quantity).None? {
        return ItemInvalid;
      }
      outcome := CreateItem(Some(cart), productId.value, quantity.n, products);
    }

    /** CartViewSet's destroy: the cart goes, and with it (CASCADE) every
        item of that cart; other carts' items stay. */
    method DeleteCart(cart: CartId) returns (found: bool)
      requires Valid()
      modifies this
      ensures Valid()
      ensures found <==> old(CartExists(cart))
      ensures found ==> carts == Filter(old(carts), (c: Cart) => c.id != cart)
                        && items == Filter(old(items), (it: CartItem) => it.cart != cart)
      ensures !found ==> carts == old(carts) && items == old(items)
      ensures nextItemId == old(nextItemId)
      ensures CartItemsOf(items, cart) == []
    {
      found := exists c :: c in carts && c.id == cart;
      if found {
        var kept := Filter(items, (it: CartItem) => it.cart != cart);
        FilterKeepsOneItemPerPair(items, cart);
        carts := Filter(carts, (c: Cart) => c.id != cart);
        items := kept;
      }
      FilterNone(items, (it: CartItem) => it.cart == cart);
    }
  }

  /** The (cart, product) pair an item is unique on. */
  function PairOf(it: CartItem): (CartId, ProductId) {
    (it.cart, it.product)
  }

  /** One item per (cart, product) is distinctness of the pairs. */
  lemma OneItemPerPairKeys(items: seq<CartItem>)
    ensures OneItemPerCartProduct(items) <==> DistinctKeys(items, PairOf)
  {
  }

  /** Removing one cart's items keeps the pair uniqueness. */
  lemma FilterKeepsOneItemPerPair(items: seq<CartItem>, cart: CartId)
    requires OneItemPerCartProduct(items)
    ensures OneItemPerCartProduct(Filter(items, (it: CartItem) => it.cart != cart))
  {
    var p := (it: CartItem) => it.cart != cart;
    OneItemPerPairKeys(items);
    FilterKeepsDistinctKeys(items, p, PairOf);
    OneItemPerPairKeys(Filter(items, p));
  }

}
