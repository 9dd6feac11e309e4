/** The input validators and computed fields of store/serializers.py. */
module StoreSerializers {
  import opened Common
  import opened StoreModels
  import opened Users

  // ---------------------------------------------------------------------
  // ReviewSerializer.validate_rating
  // ---------------------------------------------------------------------

  datatype RatingCheck = RatingAccepted(value: int) | RatingRejected | RatingTypeError

  /** `validate_rating` on a rating in tenths: accepted iff 1.0 <= rating
      <= 5.0. A null rating that reaches the validator makes the comparison
      with None raise. */
  function ValidateRating(rating: Option<int>): (r: RatingCheck)
    ensures r.RatingAccepted? <==> rating.Some? && 10 <= rating.value <= 50
    ensures r.RatingAccepted? ==> r.value == rating.value
    ensures r == RatingTypeError <==> rating.None?
  {
    match rating
    case None => RatingTypeError
    case Some(v) => if 10 <= v <= 50 then RatingAccepted(v) else RatingRejected
  }

  /** The `rating` of a review body. The model column is nullable, so the
      serializer field is not required: the key may be left out. */
  datatype RatingInput = RatingOmitted | RatingGiven(rating: Option<int>)

  /** What becomes of the rating: the value stored (NULL for `None`), a
      validation error, or the exception raised inside the validator. */
  datatype RatingOutcome = RatingStored(stored: Option<int>) | RatingRefused | RatingRaises

  /** ReviewSerializer's handling of `rating`: an omitted field is skipped,
      so `validate_rating` does not run and the review is stored with a NULL
      rating; a given value, null included, goes through `validate_rating`. */
  function ValidateReviewRating(input: RatingInput): (r: RatingOutcome)
    ensures input.RatingOmitted? ==> r == RatingStored(None)
    ensures r.RatingStored? <==> input.RatingOmitted? || ValidateRating(input.rating).RatingAccepted?
    ensures r.RatingStored? && r.stored.Some? ==> input == RatingGiven(r.stored) && 10 <= r.stored.value <= 50
    ensures r == RatingRaises <==> input == RatingGiven(None)
  {
    match input
    case RatingOmitted => RatingStored(None)
    case RatingGiven(v) =>
      match ValidateRating(v)
      case RatingAccepted(x) => RatingStored(Some(x))
      case RatingRejected => RatingRefused
      case RatingTypeError => RatingRaises
  }

  // ---------------------------------------------------------------------
  // DealSerializer.validate / validate_valid_until
  // ---------------------------------------------------------------------

  /** The Deal model's discount types; only PERCENTAGE and FIXED are named. */
  datatype DiscountType = Percentage | Fixed | OtherDiscount(name: string)

  /** `discount_value` as validated, in cents; None when omitted or null. */
  predicate Truthy(value: Option<int>) {
    value.Some? && value.value != 0
  }

  /** `DealSerializer.validate`: a percentage or fixed deal needs a truthy
      discount value, so both a missing value and 0 are rejected; every
      other discount type passes whatever the value. */
  function ValidateDeal(discountType: DiscountType, discountValue: Option<int>): (ok: bool)
    ensures !discountType.OtherDiscount? ==>
              (ok <==> discountValue.Some? && discountValue.value != 0)
    ensures discountType.OtherDiscount? ==> ok
  {
    !((discountType == Percentage || discountType == Fixed) && !Truthy(discountValue))
  }

  /** What a client may send for `valid_until`: nothing, a string (with the
      datetime `parse_datetime` gives for it, None when it does not parse),
      an already-parsed datetime, or anything else. Datetimes are integers. */
  datatype ValidUntilInput = VNone | VString(text: string, parsed: Option<int>) | VDateTime(at: int) | VOther

  /** `validate_valid_until`: Ok carries the value kept (None stays None). */
  function ValidateValidUntil(v: ValidUntilInput): (r: Result<Option<int>, string>)
    ensures v == VNone ==> r == Ok(None)
    ensures v.VString? ==> (r.Ok? <==> v.parsed.Some?) && (r.Ok? ==> r.value == v.parsed)
    ensures v.VDateTime? ==> r == Ok(Some(v.at))
    ensures v == VOther ==> r.Err?
  {
    match v
    case VNone => Ok(None)
    case VString(_, parsed) =>
      if parsed.None? then Err("Invalid datetime format for valid_until. Use ISO 8601 format.")
      else Ok(parsed)
    case VDateTime(at) => Ok(Some(at))
    case VOther => Err("valid_until must be a string or a datetime object.")
  }

  // ---------------------------------------------------------------------
  // Computed fields of the product, favourite and cart serializers
  // ---------------------------------------------------------------------

  /** `get_vendor_name`: the business name, or None when there is no vendor
      or its business name is empty. */
  function VendorName(vendor: Option<SellerProfile>): (r: Option<string>)
    ensures r.None? <==> vendor.None? || vendor.value.businessName == ""
    ensures r.Some? ==> r.value == vendor.value.businessName
  {
    if vendor.Some? && vendor.value.businessName != "" then Some(vendor.value.businessName) else None
  }

  /** `get_review_count`: the number of reviews of the product. */
  function ReviewCount(pid: ProductId, reviews: seq<Review>): (n: nat)
    ensures n <= |reviews|
    ensures n == 0 <==> forall r :: r in reviews ==> r.product != pid
  {
    Count(reviews, (r: Review) => r.product == pid)
  }

  /** `get_average_rating`: the average of the product's non-NULL ratings;
      NoRatings, shown as 0, when it has none. */
  function ProductAverageRating(pid: ProductId, reviews: seq<Review>): (r: RatingSummary)
    ensures r == NoRatings <==> forall x :: x in reviews && x.product == pid ==> x.rating.None?
    ensures r.Ratings? ==> 1 <= r.count <= ReviewCount(pid, reviews)
  {
    ProductRatingsSpec(pid, reviews);
    Summarize(ProductRatings(pid, reviews))
  }

  /** The product's rating column: one entry per review of the product,
      each that review's rating. */
  lemma {:induction false} ProductRatingsSpec(pid: ProductId, reviews: seq<Review>)
    ensures |ProductRatings(pid, reviews)| == ReviewCount(pid, reviews)
    ensures forall v :: v in ProductRatings(pid, reviews) <==>
                          exists x :: x in reviews && x.product == pid && x.rating == v
  {
    if reviews != [] {
      ProductRatingsSpec(pid, reviews[1..]);
      assert reviews == [reviews[0]] + reviews[1..];
      assert forall x :: x in reviews <==> x == reviews[0] || x in reviews[1..];
    }
  }

  /** A product without reviews has average 0 (NoRatings), and its count is 0. */
  lemma {:induction false} UnreviewedProduct(pid: ProductId, reviews: seq<Review>)
    requires forall r :: r in reviews ==> r.product != pid
    ensures ProductAverageRating(pid, reviews) == NoRatings
    ensures ReviewCount(pid, reviews) == 0
  {
    if reviews != [] {
      UnreviewedProduct(pid, reviews[1..]);
      assert ProductRatings(pid, reviews) == ProductRatings(pid, reviews[1..]);
    }
  }

  // ---------------------------------------------------------------------
  // CartItemSerializer validation and create
  // ---------------------------------------------------------------------

  /** A quantity in a request body: absent, an integer, or text that is not
      an integer. */
  datatype QuantityInput = QuantityAbsent | QuantityInt(n: int) | QuantityMalformed

  /** The range of a PositiveSmallIntegerField. */
  const MaxSmallInt: int := 32767

  /** CartItemSerializer's field validation: `product_id` is a required
      integer; `quantity` is required, at least 1 (MinValueValidator) and a
      positive small integer. */
  function ValidateCartItem(productId: Option<int>, quantity: QuantityInput): (r: Option<(int, int)>)
    ensures r.Some? <==> productId.Some? && quantity.QuantityInt? && 1 <= quantity.n <= MaxSmallInt
    ensures r.Some? ==> r.value == (productId.value, quantity.n)
  {
    if productId.Some? && quantity.QuantityInt? && 1 <= quantity.n <= MaxSmallInt
    then Some((productId.value, quantity.n)) else None
  }

  // ---------------------------------------------------------------------
  // OrderSerializer validation, as written and as intended
  // ---------------------------------------------------------------------

  /** The fields OrderViewSet.create hands to OrderSerializer. */
  datatype OrderData = OrderData(customer: Option<nat>, deliveryAddress: Option<string>, items: Option<seq<(ProductId, int)>>)

  /** OrderSerializer's field validation: `customer` and a
      `delivery_address` that is not blank (the CharField strips surrounding
      white space before checking) are required, and so is the nested,
      writable `items` list. */
  predicate OrderSerializerAccepts(data: OrderData)
    ensures data.items.None? || data.customer.None? ==> !OrderSerializerAccepts(data)
    ensures OrderSerializerAccepts(data) ==> data.deliveryAddress.Some? && Strip(data.deliveryAddress.value) != ""
  {
    && data.customer.Some?
    && data.deliveryAddress.Some? && !IsBlank(data.deliveryAddress.value)
    && data.items.Some?
  }

  /** The data OrderViewSet.create builds: a customer and an address, and
      no `items` key. */
  function ViewOrderData(customer: nat, address: Option<string>): (d: OrderData)
    ensures d.items.None?
  {
    OrderData(Some(customer), address, None)
  }

  /** As written, no cart can be converted: the data the view builds always
      fails validation, whatever the customer and the address. */
  lemma ViewOrderDataAlwaysRejected(customer: nat, address: Option<string>)
    ensures !OrderSerializerAccepts(ViewOrderData(customer, address))
  {
  }

  /** The check the conversion evidently intends: the fields the view
      supplies, with the items taken from the cart rather than the body. The
      address kept is the stripped one. */
  predicate OrderFieldsAccepted(address: Option<string>) {
    address.Some? && Strip(address.value) != ""
  }

  /** The intended check accepts exactly the data the serializer would
      accept once the cart's items are attached. */
  lemma OrderFieldsMatchSerializer(customer: nat, address: Option<string>, lines: seq<(ProductId, int)>)
    ensures OrderFieldsAccepted(address) <==>
            OrderSerializerAccepts(ViewOrderData(customer, address).(items := Some(lines)))
  {
  }
}
