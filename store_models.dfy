/** The catalogue, cart, order and review records of store/models.py and
    the computations over them. Prices are integer cents (the source's
    2-place DecimalFields), ratings integer tenths (a 1-place DecimalField),
    so `round(total, 2)` of a sum of cent amounts is the amount itself. */
module StoreModels {
  import opened Common

  type ProductId = nat
  type OrderId = nat
  type CartId = nat
  type VendorId = nat

  datatype PaymentStatus = PaymentPending | PaymentComplete | PaymentFailed
  datatype DeliveryStatus = Preparing | OnRoute | Delivered

  /** The one-letter code stored in `payment_status`. */
  function PaymentCode(s: PaymentStatus): string {
    match s
    case PaymentPending => "P"
    case PaymentComplete => "C"
    case PaymentFailed => "F"
  }

  /** The value stored in `delivery_status`. */
  function DeliveryCode(s: DeliveryStatus): string {
    match s
    case Preparing => "PREPARING"
    case OnRoute => "ON_ROUTE"
    case Delivered => "DELIVERED"
  }

  datatype Category = Category(id: nat, title: string)

  /** A Product row; `vendor` is the seller profile's key, if any. */
  datatype Product = Product(id: ProductId, title: string, unitPrice: int, inventory: int,
                             category: nat, vendor: Option<VendorId>)

  /** MinValueValidator(1) on a 2-place price: one unit, in cents. */
  const MinUnitPrice: int := 100
  /** `max_digits=6, decimal_places=2`: 9999.99, in cents. */
  const MaxUnitPrice: int := 999999
  /** The range of an IntegerField. */
  const MaxInventory: int := 0x7fff_ffff

  /** The field validators of a product: a title that is not blank and has
      at most 255 characters once stripped of surrounding white space, a
      price of at least 1.00 that fits six digits, and a non-negative
      inventory. */
  predicate ProductFieldsValid(title: string, unitPrice: int, inventory: int) {
    && Strip(title) != "" && |Strip(title)| <= 255
    && MinUnitPrice <= unitPrice <= MaxUnitPrice
    && 0 <= inventory <= MaxInventory
  }

  datatype Order = Order(id: OrderId, customer: nat, payment: PaymentStatus,
                         delivery: DeliveryStatus, address: string)

  /** A new order takes the column defaults: payment pending, preparing. */
  function NewOrder(id: OrderId, customer: nat, address: string): (o: Order)
    ensures o.payment == PaymentPending && o.delivery == Preparing
    ensures o.id == id && o.customer == customer && o.address == address
  {
    Order(id, customer, PaymentPending, Preparing, address)
  }

  datatype OrderItem = OrderItem(id: nat, order: OrderId, product: ProductId, quantity: int, unitPrice: int)

  datatype Cart = Cart(id: CartId, customer: Option<nat>)

  datatype CartItem = CartItem(id: nat, cart: CartId, product: ProductId, quantity: int)

  /** A Review row; `rating` is in tenths and may be NULL. */
  datatype Review = Review(id: nat, product: ProductId, user: nat, rating: Option<int>)

  datatype Favourite = Favourite(customer: nat, product: ProductId)

  // ---------------------------------------------------------------------
  // Totals
  // ---------------------------------------------------------------------

  /** `sum(item.unit_price * item.quantity for item in items)`. */
  function ItemsTotal(items: seq<OrderItem>): int {
    if items == [] then 0
    else items[0].unitPrice * items[0].quantity + ItemsTotal(items[1..])
  }

  lemma {:induction false} ItemsTotalAppend(a: seq<OrderItem>, b: seq<OrderItem>)
    ensures ItemsTotal(a + b) == ItemsTotal(a) + ItemsTotal(b)
  {
    if a == [] {
      assert a + b == b;
    } else {
      assert (a + b)[0] == a[0];
      assert (a + b)[1..] == a[1..] + b;
      ItemsTotalAppend(a[1..], b);
    }
  }

  /** Every line has a non-negative quantity and price. */
  predicate NonNegativeLines(items: seq<OrderItem>) {
    forall i :: 0 <= i < |items| ==> items[i].quantity >= 0 && items[i].unitPrice >= 0
  }

  /** `Order.calculate_total_amount`: the sum over the order's own items,
      0 when it has none, never negative for non-negative lines, and exactly
      the sum of the items that belong to the order whichever other rows
      the table holds. */
  function CalculateTotalAmount(orderId: OrderId, items: seq<OrderItem>): (t: int)
    ensures (forall i :: 0 <= i < |items| ==> items[i].order != orderId) ==> t == 0
    ensures NonNegativeLines(items) ==> t >= 0
  {
    var own := Filter(items, (it: OrderItem) => it.order == orderId);
    assert own != [] ==> own[0] in items;
    assert NonNegativeLines(items) ==> NonNegativeLines(own) by {
      if NonNegativeLines(items) {
        forall i | 0 <= i < |own| ensures own[i].quantity >= 0 && own[i].unitPrice >= 0 {
          assert own[i] in items;
        }
      }
    }
    ItemsTotalNonNegative(own);
    ItemsTotal(own)
  }

  lemma {:induction false} ItemsTotalNonNegative(items: seq<OrderItem>)
    ensures NonNegativeLines(items) ==> ItemsTotal(items) >= 0
    ensures items == [] ==> ItemsTotal(items) == 0
  {
    if items != [] {
      ItemsTotalNonNegative(items[1..]);
    }
  }

  /** Appending rows of other orders does not change an order's total. */
  lemma {:induction false} CalculateTotalIgnoresOtherOrders(orderId: OrderId, items: seq<OrderItem>, more: seq<OrderItem>)
    requires forall it :: it in more ==> it.order != orderId
    ensures CalculateTotalAmount(orderId, items + more) == CalculateTotalAmount(orderId, items)
  {
    var p := (it: OrderItem) => it.order == orderId;
    FilterAppend(items, more, p);
    FilterNone(more, p);
    assert Filter(items, p) + [] == Filter(items, p);
  }

  /** The total of an order whose items are all new: the rows of other
      orders that the table already holds do not count. */
  lemma {:induction false} FreshOrderTotal(orderId: OrderId, existing: seq<OrderItem>, added: seq<OrderItem>)
    requires forall it :: it in existing ==> it.order != orderId
    requires forall it :: it in added ==> it.order == orderId
    ensures CalculateTotalAmount(orderId, existing + added) == ItemsTotal(added)
  {
    var p := (it: OrderItem) => it.order == orderId;
    FilterAppend(existing, added, p);
    FilterNone(existing, p);
    FilterAll(added, p);
    assert [] + added == added;
  }

  function ProductById(products: seq<Product>, pid: ProductId): (r: Option<Product>)
    ensures r.Some? ==> r.value in products && r.value.id == pid
    ensures r.None? <==> forall i :: 0 <= i < |products| ==> products[i].id != pid
  {
    match FindIndex(products, (p: Product) => p.id == pid)
    case Some(i) => Some(products[i])
    case None => None
  }

  /** Every cart item refers to a product in the table (the foreign key). */
  predicate ProductsExist(items: seq<CartItem>, products: seq<Product>) {
    forall it :: it in items ==> ProductById(products, it.product).Some?
  }

  /** CartItemSerializer.get_total_price: quantity times the product's
      current price. */
  function CartItemTotalPrice(item: CartItem, product: Product): (r: int)
    ensures item.quantity == 0 ==> r == 0
    ensures item.quantity >= 1 && product.unitPrice >= 0 ==> r >= product.unitPrice
  {
    if item.quantity >= 1 && product.unitPrice >= 0 then
      assert item.quantity * product.unitPrice == product.unitPrice + (item.quantity - 1) * product.unitPrice;
      item.quantity * product.unitPrice
    else
      item.quantity * product.unitPrice
  }

  /** CartSerializer.get_total: the sum of the items' total prices. */
  function CartTotal(items: seq<CartItem>, products: seq<Product>): (r: int)
    requires ProductsExist(items, products)
    ensures (forall it :: it in items ==>
               it.quantity >= 0 && ProductById(products, it.product).value.unitPrice >= 0) ==> r >= 0
  {
    if items == [] then 0
    else CartItemTotalPrice(items[0], ProductById(products, items[0].product).value)
         + CartTotal(items[1..], products)
  }

  /** `sum` over the cart's items splits over any division of them. */
  lemma {:induction false} CartTotalSplit(a: seq<CartItem>, b: seq<CartItem>, products: seq<Product>)
    requires ProductsExist(a + b, products)
    ensures ProductsExist(a, products) && ProductsExist(b, products)
    ensures CartTotal(a + b, products) == CartTotal(a, products) + CartTotal(b, products)
  {
    assert forall it :: it in a || it in b ==> it in a + b;
    if a == [] {
      assert a + b == b;
    } else {
      assert (a + b)[1..] == a[1..] + b;
      assert forall it :: it in a[1..] ==> it in a;
      CartTotalSplit(a[1..], b, products);
    }
  }

  /** The order items a cart becomes: one per cart item, same product and
      quantity, at the product's current price, with consecutive ids. */
  function PricedItems(items: seq<CartItem>, products: seq<Product>, order: OrderId, firstId: nat): (r: seq<OrderItem>)
    requires ProductsExist(items, products)
    ensures |r| == |items|
    ensures forall i :: 0 <= i < |items| ==>
              && r[i].order == order && r[i].id == firstId + i
              && r[i].product == items[i].product && r[i].quantity == items[i].quantity
              && r[i].unitPrice == ProductById(products, items[i].product).value.unitPrice
  {
    seq(|items|, i requires 0 <= i < |items| =>
      OrderItem(firstId + i, order, items[i].product, items[i].quantity,
                ProductById(products, items[i].product).value.unitPrice))
  }

  /** Converting a cart keeps its value: the order items' total equals the
      cart total at the moment of conversion. */
  lemma {:induction false} PricedItemsKeepTotal(items: seq<CartItem>, products: seq<Product>, order: OrderId, firstId: nat)
    requires ProductsExist(items, products)
    ensures ItemsTotal(PricedItems(items, products, order, firstId)) == CartTotal(items, products)
  {
    if items != [] {
      var r := PricedItems(items, products, order, firstId);
      assert r[1..] == PricedItems(items[1..], products, order, firstId + 1);
      PricedItemsKeepTotal(items[1..], products, order, firstId + 1);
    }
  }

  // ---------------------------------------------------------------------
  // Ratings
  // ---------------------------------------------------------------------

  /** What an `Avg('rating')` aggregate is computed from: nothing (the
      aggregate is NULL and the source stores 0), or the sum and the number
      of the non-NULL ratings. The division and its rounding are left out. */
  datatype RatingSummary = NoRatings | Ratings(sum: int, count: nat)

  function RatedValues(ratings: seq<Option<int>>): (r: seq<int>)
    ensures |r| <= |ratings|
    ensures forall v :: v in r <==> Some(v) in ratings
  {
    if ratings == [] then []
    else match ratings[0]
      case Some(v) => [v] + RatedValues(ratings[1..])
      case None => RatedValues(ratings[1..])
  }

  function Sum(values: seq<int>): int {
    if values == [] then 0 else values[0] + Sum(values[1..])
  }

  /** The summary of a list of nullable ratings: NULLs are skipped. */
  function Summarize(ratings: seq<Option<int>>): (r: RatingSummary)
    ensures r == NoRatings <==> forall x :: x in ratings ==> x.None?
    ensures r.Ratings? ==> r.count >= 1 && r.count == |RatedValues(ratings)|
                           && r.sum == Sum(RatedValues(ratings))
  {
    var vs := RatedValues(ratings);
    if vs == [] then
      NoRatings
    else
      assert vs[0] in vs;
      Ratings(Sum(vs), |vs|)
  }

  /** Whether the average the summary stands for is zero (Python's falsy
      `0`), or absent. */
  predicate AverageIsZeroOrAbsent(s: RatingSummary) {
    s == NoRatings || s.sum == 0
  }

  /** The ratings of the reviews of one product. */
  function ProductRatings(pid: ProductId, reviews: seq<Review>): seq<Option<int>> {
    if reviews == [] then []
    else (if reviews[0].product == pid then [reviews[0].rating] else [])
         + ProductRatings(pid, reviews[1..])
  }

  /** The review's product belongs to the vendor
      (`Review.objects.filter(product__vendor=vendor)`). */
  predicate OfVendor(r: Review, vendor: VendorId, products: seq<Product>) {
    ProductById(products, r.product).Some? && ProductById(products, r.product).value.vendor == Some(vendor)
  }

  /** The ratings of the reviews of every product of one vendor. */
  function VendorRatings(vendor: VendorId, reviews: seq<Review>, products: seq<Product>): seq<Option<int>> {
    if reviews == [] then []
    else (if OfVendor(reviews[0], vendor, products) then [reviews[0].rating] else [])
         + VendorRatings(vendor, reviews[1..], products)
  }

  /** `update_vendor_rating`'s value: over all of the vendor's products,
      only non-NULL ratings count, and no such rating gives 0 (NoRatings).
      The summary is empty iff no rated review is of the vendor's products. */
  function VendorRating(vendor: VendorId, reviews: seq<Review>, products: seq<Product>): (r: RatingSummary)
    ensures r == NoRatings <==>
              forall i :: 0 <= i < |reviews| && reviews[i].rating.Some? ==> !OfVendor(reviews[i], vendor, products)
  {
    VendorRatingsMembership(vendor, reviews, products);
    Summarize(VendorRatings(vendor, reviews, products))
  }

  lemma {:induction false} VendorRatingsMembership(vendor: VendorId, reviews: seq<Review>, products: seq<Product>)
    ensures (exists x :: x in VendorRatings(vendor, reviews, products) && x.Some?) <==>
            exists i :: 0 <= i < |reviews| && reviews[i].rating.Some? && OfVendor(reviews[i], vendor, products)
  {
    if reviews != [] {
      VendorRatingsMembership(vendor, reviews[1..], products);
      var rest := VendorRatings(vendor, reviews[1..], products);
      var head := if OfVendor(reviews[0], vendor, products) then [reviews[0].rating] else [];
      var all := VendorRatings(vendor, reviews, products);
      assert all == head + rest;
      if exists x :: x in all && x.Some? {
        var x :| x in all && x.Some?;
        if x in head {
          assert reviews[0].rating.Some? && OfVendor(reviews[0], vendor, products);
        } else {
          assert x in rest;
          var j :| 0 <= j < |reviews[1..]| && reviews[1..][j].rating.Some? && OfVendor(reviews[1..][j], vendor, products);
          assert reviews[j + 1] == reviews[1..][j];
        }
      }
      if exists i :: 0 <= i < |reviews| && reviews[i].rating.Some? && OfVendor(reviews[i], vendor, products) {
        var i :| 0 <= i < |reviews| && reviews[i].rating.Some? && OfVendor(reviews[i], vendor, products);
        if i == 0 {
          assert reviews[0].rating in all;
        } else {
          assert reviews[1..][i - 1] == reviews[i];
          var x :| x in rest && x.Some?;
          assert x in all;
        }
      }
    }
  }

  // ---------------------------------------------------------------------
  // Uniqueness constraints
  // ---------------------------------------------------------------------

  /** `unique_together = [["cart", "product"]]` on CartItem. */
  predicate OneItemPerCartProduct(items: seq<CartItem>) {
    forall i, j :: 0 <= i < j < |items| ==>
      !(items[i].cart == items[j].cart && items[i].product == items[j].product)
  }

  /** `unique_together = ("customer", "product")` on FavouriteProduct. */
  predicate OneFavouritePerCustomerProduct(favs: seq<Favourite>) {
    forall i, j :: 0 <= i < j < |favs| ==> favs[i] != favs[j]
  }
}
