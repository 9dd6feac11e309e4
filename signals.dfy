/** The signal handlers that turn model saves into notifications
    (notifications/signals.py): seller verification, account activation,
    and the capture and notification of order changes. */
module Signals {
  import opened Common
  import opened Users
  import opened StoreModels
  import opened Notifications

  /** A notice to insert through `notify_user` or `objects.create`. */
  datatype Notice = Notice(user: UserId, message: string, ntype: string, payload: Option<Payload>)

  /** The rows a sequence of notices becomes, with consecutive ids from
      `firstId`; `notify_user` stores `payload or {}`. */
  function NoticeRows(notices: seq<Notice>, firstId: nat, now: int): (r: seq<Notification>)
    ensures |r| == |notices|
    ensures forall i :: 0 <= i < |r| ==>
              && r[i].id == firstId + i && r[i].user == notices[i].user && !r[i].isRead
              && r[i].message == notices[i].message && r[i].ntype == notices[i].ntype
              && r[i].createdAt == now && r[i].payload == StoredPayload(notices[i].payload)
  {
    seq(|notices|, i requires 0 <= i < |notices| =>
      Notification(firstId + i, notices[i].user, notices[i].message, notices[i].ntype, false, now,
                   StoredPayload(notices[i].payload)))
  }

  // ---------------------------------------------------------------------
  // Seller verification
  // ---------------------------------------------------------------------

  /** The message for a verification status: only verified and rejected
      profiles have one. */
  function VerificationMessage(s: VerificationStatus): (m: Option<string>)
    ensures m.Some? <==> s == Verified || s == Rejected
  {
    match s
    case Verified => Some("Your seller account has been verified!")
    case Rejected => Some("Your seller verification was rejected. Please check your details.")
    case Pending => None
  }

  /** The verification notice for a profile saved with status `after.status`
      when it was `before`: none for a new profile or an unchanged status;
      otherwise the status's message, if it has one, as an "account" notice
      carrying the profile id. */
  function SellerVerificationNotice(created: bool, before: VerificationStatus, after: SellerProfile)
    : (n: Option<Notice>)
    ensures n.Some? <==> !created && before != after.status && (after.status == Verified || after.status == Rejected)
    ensures n.Some? ==> && n.value.user == after.user && n.value.ntype == "account"
                        && n.value.payload == Some(map["seller_id" := JInt(after.id)])
                        && Some(n.value.message) == VerificationMessage(after.status)
  {
    if created || before == after.status then None
    else match VerificationMessage(after.status)
      case None => None
      case Some(m) => Some(Notice(after.user, m, "account", Some(map["seller_id" := JInt(after.id)])))
  }

  /** `handle_seller_verification` as written: the "old" profile is
      re-read after the save has stored the new status, so it always equals
      the instance and no notice is ever produced. */
  function SellerVerificationAsWritten(created: bool, instance: SellerProfile): (n: Option<Notice>)
    ensures n.None?
  {
    var reread := instance;
    SellerVerificationNotice(created, reread.status, instance)
  }

  /** A pending profile that an admin verifies gets no notice as written,
      but does when the status before the save is compared. */
  lemma VerificationNeverNotifiedAsWritten()
    ensures var p := SellerProfile(7, 3, "Shop", "Street 1", "555", Verified);
            && SellerVerificationAsWritten(false, p).None?
            && SellerVerificationNotice(false, Pending, p).Some?
  {
  }

  /** The seller-verification handler comparing with the status the
      profile had before the save: at most one "account" row is added. */
  method HandleSellerVerification(store: NotificationStore, created: bool, before: VerificationStatus,
                                  profile: SellerProfile, now: int)
    returns (notified: bool)
    requires store.Valid()
    modifies store
    ensures store.Valid()
    ensures var n := SellerVerificationNotice(created, before, profile);
            && (notified <==> n.Some?)
            && store.rows == old(store.rows) + NoticeRows(if n.Some? then [n.value] else [], old(store.nextId), now)
            && store.nextId == old(store.nextId) + (if n.Some? then 1 else 0)
    ensures store.details == old(store.details)
  {
    var n := SellerVerificationNotice(created, before, profile);
    notified := n.Some?;
    if n.Some? {
      assert "seller_id" in n.value.payload.value;
      assert StoredPayload(n.value.payload) == n.value.payload;
      var row := store.Create(n.value.user, n.value.message, n.value.ntype, n.value.payload, now);
      assert NoticeRows([n.value], old(store.nextId), now) == [row];
    } else {
      assert NoticeRows([], old(store.nextId), now) == [];
    }
  }

  // ---------------------------------------------------------------------
  // Account activation
  // ---------------------------------------------------------------------

  /** `track_user_activation_change`: the stored `is_active`, or None when
      the user is not stored yet. */
  function PreviousIsActive(stored: Option<User>): (r: Option<bool>)
    ensures r.None? <==> stored.None?
    ensures r.Some? ==> r.value == stored.value.isActive
  {
    match stored
    case None => None
    case Some(u) => Some(u.isActive)
  }

  /** The condition of `handle_user_activation`. */
  predicate ActivationFires(created: bool, previous: Option<bool>, isActive: bool) {
    !created && previous == Some(false) && isActive
  }

  /** A new user is never told of an activation, nor is a user who was
      already active; only the transition from stored-inactive to active
      notifies. */
  lemma ActivationOnlyOnTransition(created: bool, stored: Option<User>, isActive: bool)
    ensures stored.None? ==> !ActivationFires(created, PreviousIsActive(stored), isActive)
    ensures stored.Some? && stored.value.isActive ==> !ActivationFires(created, PreviousIsActive(stored), isActive)
    ensures ActivationFires(created, PreviousIsActive(stored), isActive) <==>
              !created && stored.Some? && !stored.value.isActive && isActive
  {
  }

  const ActivationMessage := "Your account has been activated successfully!"

  /** `handle_user_activation`: one "account" row without payload when the
      condition holds, nothing otherwise. */
  method HandleUserActivation(store: NotificationStore, created: bool, previous: Option<bool>, user: User, now: int)
    returns (notified: bool)
    requires store.Valid()
    modifies store
    ensures store.Valid()
    ensures notified <==> ActivationFires(created, previous, user.isActive)
    ensures notified ==> store.rows == old(store.rows) +
                                     [Notification(old(store.nextId), user.id, ActivationMessage, "account", false, now, None)]
    ensures !notified ==> store.rows == old(store.rows) && store.nextId == old(store.nextId)
    ensures store.details == old(store.details)
  {
    notified := !created && previous == Some(false) && user.isActive;
    if notified {
      var row := store.Create(user.id, ActivationMessage, "account", None, now);
    }
  }

  // ---------------------------------------------------------------------
  // Order capture (pre_save)
  // ---------------------------------------------------------------------

  /** The statuses captured before an order is saved. */
  function CaptureOriginal(stored: Option<Order>): (o: OriginalData)
    ensures stored.None? ==> o == OriginalData(None, None, false)
    ensures stored.Some? ==> && o.delivery == Some(stored.value.delivery)
                             && o.payment == Some(stored.value.payment)
                             && (o.isCancelled <==> stored.value.payment == PaymentFailed)
  {
    match stored
    case None => OriginalData(None, None, false)
    case Some(s) => OriginalData(Some(s.delivery), Some(s.payment), s.payment == PaymentFailed)
  }

  /** Two decimal digits. */
  function TwoDigits(c: nat): (s: string)
    requires c < 100
    ensures |s| == 2 && AllDigits(s)
  {
    [DigitChar(c / 10), DigitChar(c % 10)]
  }

  /** `str()` of a non-negative two-place decimal amount given in cents. */
  function UnsignedText(cents: nat): (s: string)
    ensures |s| >= 4 && s[|s| - 3] == '.'
    ensures s[..|s| - 3] == NatToString(cents / 100) && s[|s| - 2..] == TwoDigits(cents % 100)
  {
    var s := NatToString(cents / 100) + "." + TwoDigits(cents % 100);
    assert s[..|s| - 3] == NatToString(cents / 100);
    s
  }

  /** `str()` of a two-place decimal amount given in cents. */
  function DecimalText(cents: int): (s: string)
    ensures cents >= 0 ==> s == UnsignedText(cents)
    ensures cents < 0 ==> s == "-" + UnsignedText(-cents)
  {
    if cents < 0 then "-" + UnsignedText(-cents) else UnsignedText(cents)
  }

  /** Reading the text back gives the amount: units before the point,
      cents after it. */
  lemma DecimalTextRoundTrip(cents: nat)
    ensures var s := DecimalText(cents);
            && |s| >= 4 && s[|s| - 3] == '.' && AllDigits(s[..|s| - 3]) && AllDigits(s[|s| - 2..])
            && ParseDecimal(s[..|s| - 3]) * 100 + ParseDecimal(s[|s| - 2..]) == cents
  {
    var s := DecimalText(cents);
    ParseNatToString(cents / 100);
    ParseTwoDigits(cents % 100);
  }

  lemma ParseTwoDigits(c: nat)
    requires c < 100
    ensures ParseDecimal(TwoDigits(c)) == c
  {
    var t := TwoDigits(c);
    assert t[..|t| - 1] == [t[0]];
    assert [t[0]][..0] == [];
    assert ParseDecimal([t[0]]) == DigitValue(t[0]);
  }

  /** The snapshot entry of one item. */
  function ItemEntry(it: OrderItem, products: seq<Product>): Json
    requires ProductById(products, it.product).Some?
  {
    JObject(map["product" := JStr(ProductById(products, it.product).value.title),
                "quantity" := JInt(it.quantity),
                "unit_price" := JStr(DecimalText(it.unitPrice))])
  }

  /** `str(calculate_total_amount())`: the sum of an empty queryset is the
      integer 0 and prints as "0"; any other total is a two-place decimal. */
  function TotalText(orderId: OrderId, items: seq<OrderItem>): (s: string)
    ensures Filter(items, (it: OrderItem) => it.order == orderId) == [] ==> s == "0"
    ensures Filter(items, (it: OrderItem) => it.order == orderId) != [] ==>
              s == DecimalText(CalculateTotalAmount(orderId, items))
  {
    if Filter(items, (it: OrderItem) => it.order == orderId) == [] then "0"
    else DecimalText(CalculateTotalAmount(orderId, items))
  }

  /** The snapshot entries of an order's items, in table order. */
  function ItemEntries(own: seq<OrderItem>, products: seq<Product>): (r: seq<Json>)
    requires forall it :: it in own ==> ProductById(products, it.product).Some?
    ensures |r| == |own|
    ensures forall i :: 0 <= i < |own| ==> r[i] == ItemEntry(own[i], products)
  {
    seq(|own|, i requires 0 <= i < |own| => ItemEntry(own[i], products))
  }

  /** `track_order_changes`' snapshot, with the vendor's business name as
      an input (None when there is no vendor): empty for an order not yet
      stored; otherwise the order's items, its total, its address, its new
      payment status and the vendor. */
  function CaptureSnapshot(stored: Option<Order>, instance: Order, items: seq<OrderItem>,
                           products: seq<Product>, vendorName: Option<string>): (p: Payload)
    requires forall it :: it in items ==> ProductById(products, it.product).Some?
    ensures stored.None? ==> p == map[]
    ensures stored.Some? ==>
              && p.Keys == {"items", "total", "delivery_address", "payment_status", "vendor"}
              && p["items"].JList?
              && |p["items"].elems| == |Filter(items, (it: OrderItem) => it.order == instance.id)|
              && (forall i :: 0 <= i < |p["items"].elems| ==>
                    p["items"].elems[i] == ItemEntry(Filter(items, (it: OrderItem) => it.order == instance.id)[i], products))
              && p["total"] == JStr(TotalText(instance.id, items))
              && p["delivery_address"] == JStr(instance.address)
              && p["payment_status"] == JStr(PaymentCode(instance.payment))
              && (p["vendor"] == JNull <==> vendorName.None?)
  {
    if stored.None? then map[]
    else
      var own := Filter(items, (it: OrderItem) => it.order == instance.id);
      map["items" := JList(ItemEntries(own, products)),
          "total" := JStr(TotalText(instance.id, items)),
          "delivery_address" := JStr(instance.address),
          "payment_status" := JStr(PaymentCode(instance.payment)),
          "vendor" := if vendorName.Some? then JStr(vendorName.value) else JNull]
  }

  /** For a stored order with items, the snapshot's total is the order's
      total amount written out. */
  lemma SnapshotTotal(stored: Order, instance: Order, items: seq<OrderItem>, products: seq<Product>,
                      vendorName: Option<string>)
    requires forall it :: it in items ==> ProductById(products, it.product).Some?
    requires exists it :: it in items && it.order == instance.id
    ensures CaptureSnapshot(Some(stored), instance, items, products, vendorName)["total"]
            == JStr(DecimalText(CalculateTotalAmount(instance.id, items)))
  {
    var it :| it in items && it.order == instance.id;
    assert it in Filter(items, (x: OrderItem) => x.order == instance.id);
  }

  datatype CaptureError = NoVendorAttribute

  /** `track_order_changes` as written: for a stored order the snapshot
      reads `instance.vendor`, an attribute Order does not have, and the
      AttributeError is not the DoesNotExist the handler catches, so the
      save of every stored order fails. Only a new order gets through. */
  function CaptureAsWritten(stored: Option<Order>): (r: Result<(OriginalData, Payload), CaptureError>)
    ensures r.Err? <==> stored.Some?
    ensures r.Ok? ==> r.value == (OriginalData(None, None, false), map[])
  {
    if stored.Some? then Err(NoVendorAttribute) else Ok((CaptureOriginal(None), map[]))
  }

  /** Marking a stored order as paid fails as written, while the capture
      with the vendor supplied yields its original statuses. */
  lemma StatusUpdateFailsAsWritten()
    ensures var o := Order(1, 2, PaymentPending, Preparing, "Street 1");
            && CaptureAsWritten(Some(o)).Err?
            && CaptureOriginal(Some(o)) == OriginalData(Some(Preparing), Some(PaymentPending), false)
  {
  }

  // ---------------------------------------------------------------------
  // Order notifications (post_save)
  // ---------------------------------------------------------------------

  /** "Order #<id>" and the rest of a message. */
  function OrderText(order: Order, prefix: string, suffix: string): string {
    prefix + NatToString(order.id) + suffix
  }

  /** How an f-string shows a captured delivery status. */
  function ShowDelivery(d: Option<DeliveryStatus>): string {
    if d.Some? then DeliveryCode(d.value) else "None"
  }

  function StatusChangeMessage(order: Order, original: OriginalData): string {
    OrderText(order, "Order #", " status changed: ") + ShowDelivery(original.delivery) + " \U{2192} "
      + DeliveryCode(order.delivery)
  }

  predicate DeliveryChanged(order: Order, original: OriginalData) {
    Some(order.delivery) != original.delivery
  }

  /** The cancellation branch: a move into "F" from anything else. */
  predicate Cancels(order: Order, original: OriginalData) {
    original.payment != Some(PaymentFailed) && order.payment == PaymentFailed
  }

  /** The base notification's message and type after the creation and
      delivery-change rewrites: the delivery change replaces the message
      and keeps the type. */
  function RewrittenText(created: bool, order: Order, original: OriginalData): (t: (string, string))
    ensures t.1 == (if created then "new_order" else "order_status")
    ensures DeliveryChanged(order, original) ==> t.0 == StatusChangeMessage(order, original)
    ensures !DeliveryChanged(order, original) ==>
              t.0 == (if created then OrderText(order, "New order #", " placed") else OrderText(order, "Order #", " update"))
  {
    var t0 := (OrderText(order, "Order #", " update"), "order_status");
    var t1 := if created then (OrderText(order, "New order #", " placed"), "new_order") else t0;
    if DeliveryChanged(order, original) then (StatusChangeMessage(order, original), t1.1) else t1
  }

  /** The base notification's final message and type: the cancellation
      rewrite, which runs last, overrides both earlier ones. */
  function BaseText(created: bool, order: Order, original: OriginalData): (t: (string, string))
    ensures Cancels(order, original) ==> t == (OrderText(order, "Order #", " cancelled"), "order_cancellation")
    ensures !Cancels(order, original) ==> t == RewrittenText(created, order, original)
  {
    if Cancels(order, original) then (OrderText(order, "Order #", " cancelled"), "order_cancellation")
    else RewrittenText(created, order, original)
  }

  /** The customer's payment notice: a change of payment status to "C" or
      "F" has one, a change to "P" or no change has none. */
  function PaymentNotice(order: Order, original: OriginalData): (r: Option<(string, string)>)
    ensures r.Some? <==> Some(order.payment) != original.payment && order.payment != PaymentPending
    ensures r.Some? && order.payment == PaymentComplete ==>
              r.value == ("payment_success", OrderText(order, "Payment for order #", " received"))
    ensures r.Some? && order.payment == PaymentFailed ==>
              r.value == ("payment_failed", OrderText(order, "Payment failed for order #", ""))
  {
    if Some(order.payment) == original.payment then None
    else match order.payment
      case PaymentComplete => Some(("payment_success", OrderText(order, "Payment for order #", " received")))
      case PaymentFailed => Some(("payment_failed", OrderText(order, "Payment failed for order #", "")))
      case PaymentPending => None
  }

  /** The vendor's type for a payment notice. */
  function VendorType(customerType: string): string {
    if customerType == "payment_success" then "payment_received" else "restaurant_order_cancellation"
  }

  function OrderPayload(order: Order): Payload {
    map["order_id" := JInt(order.id)]
  }

  /** The confirmation sent to the customer on creation. */
  function Confirmation(created: bool, order: Order, customerUser: UserId): (r: seq<Notice>)
    ensures |r| == (if created then 1 else 0)
    ensures created ==> r[0] == Notice(customerUser, OrderText(order, "Order #", " confirmed!"),
                                       "order_confirmation", Some(OrderPayload(order)))
  {
    if created
    then [Notice(customerUser, OrderText(order, "Order #", " confirmed!"), "order_confirmation", Some(OrderPayload(order)))]
    else []
  }

  /** The payment notices: the customer's, then the vendor's when there is
      a vendor, both with the customer's message; the vendor's type is
      "payment_received" for a success and "restaurant_order_cancellation"
      otherwise. */
  function PaymentNotices(order: Order, original: OriginalData, customerUser: UserId, vendorUser: Option<UserId>)
    : (r: seq<Notice>)
    ensures PaymentNotice(order, original).None? ==> r == []
    ensures PaymentNotice(order, original).Some? ==>
              var p := PaymentNotice(order, original).value;
              && |r| == (if vendorUser.Some? then 2 else 1)
              && r[0] == Notice(customerUser, p.1, p.0, Some(OrderPayload(order)))
              && (vendorUser.Some? ==> r[1] == Notice(vendorUser.value, p.1, VendorType(p.0), Some(OrderPayload(order))))
  {
    match PaymentNotice(order, original)
    case None => []
    case Some(p) =>
      [Notice(customerUser, p.1, p.0, Some(OrderPayload(order)))]
      + (if vendorUser.Some? then [Notice(vendorUser.value, p.1, VendorType(p.0), Some(OrderPayload(order)))] else [])
  }

  /** The notices an order save sends besides the base notification, in
      the order they are inserted: the confirmation on creation, then the
      payment notices. */
  function OrderNotices(created: bool, order: Order, original: OriginalData, customerUser: UserId,
                        vendorUser: Option<UserId>): (r: seq<Notice>)
    ensures |r| == (if created then 1 else 0)
                   + (if PaymentNotice(order, original).Some? then (if vendorUser.Some? then 2 else 1) else 0)
    ensures forall n :: n in r ==> n.payload == Some(OrderPayload(order))
  {
    Confirmation(created, order, customerUser) + PaymentNotices(order, original, customerUser, vendorUser)
  }

  /** A new order, captured before it was stored, with the default
      statuses: the base notification ends up announcing the delivery
      change from None (the creation message is overwritten), typed
      "new_order", and the customer receives the confirmation only. */
  lemma NewOrderNotices(order: Order, customerUser: UserId, vendorUser: Option<UserId>)
    requires order.payment == PaymentPending && order.delivery == Preparing
    ensures var original := CaptureOriginal(None);
            && BaseText(true, order, original)
               == (OrderText(order, "Order #", " status changed: ") + "None \U{2192} PREPARING", "new_order")
            && OrderNotices(true, order, original, customerUser, vendorUser)
               == [Notice(customerUser, OrderText(order, "Order #", " confirmed!"), "order_confirmation",
                          Some(OrderPayload(order)))]
  {
    var original := CaptureOriginal(None);
    var prefix := OrderText(order, "Order #", " status changed: ");
    assert DeliveryCode(Preparing) == "PREPARING";
    assert ShowDelivery(None) == "None";
    assert DeliveryChanged(order, original) && !Cancels(order, original);
    assert StatusChangeMessage(order, original) == prefix + "None" + " \U{2192} " + "PREPARING";
    assert "None" + " \U{2192} " + "PREPARING" == "None \U{2192} PREPARING";
    assert prefix + "None" + " \U{2192} " + "PREPARING" == prefix + ("None" + " \U{2192} " + "PREPARING");
    assert PaymentNotices(order, original, customerUser, vendorUser) == [];
  }

  /** A stored order whose payment fails: the base notification says it is
      cancelled, the customer is told the payment failed, and the vendor
      is told of a cancellation. */
  lemma FailedPaymentNotices(stored: Order, order: Order, customerUser: UserId, vendorUser: UserId)
    requires stored.payment != PaymentFailed && order.payment == PaymentFailed
    ensures var original := CaptureOriginal(Some(stored));
            var msg := OrderText(order, "Payment failed for order #", "");
            && BaseText(false, order, original) == (OrderText(order, "Order #", " cancelled"), "order_cancellation")
            && OrderNotices(false, order, original, customerUser, Some(vendorUser))
               == [Notice(customerUser, msg, "payment_failed", Some(OrderPayload(order))),
                   Notice(vendorUser, msg, "restaurant_order_cancellation", Some(OrderPayload(order)))]
  {
  }

  /** Saving a stored order without changing either status adds only the
      base "update" notification. */
  lemma UnchangedOrderNotices(stored: Order, order: Order, customerUser: UserId, vendorUser: Option<UserId>)
    requires stored.payment == order.payment && stored.delivery == order.delivery
    ensures var original := CaptureOriginal(Some(stored));
            && BaseText(false, order, original) == (OrderText(order, "Order #", " update"), "order_status")
            && OrderNotices(false, order, original, customerUser, vendorUser) == []
  {
  }

  /** The rows of the handler so far: those before it, the base
      notification, then the notices sent. */
  ghost predicate Shaped(store: NotificationStore, rows0: seq<Notification>, base: Notification,
                         sent: seq<Notice>, id0: nat, now: int)
    reads store
  {
    && store.rows == rows0 + [base] + NoticeRows(sent, id0 + 1, now)
    && store.nextId == id0 + 1 + |sent|
    && base.id == id0
  }

  /** `notify_user` for one more notice of the handler. */
  method SendNotice(store: NotificationStore, ghost rows0: seq<Notification>, ghost base: Notification,
                    ghost sent: seq<Notice>, ghost id0: nat, n: Notice, now: int)
    requires store.Valid() && Shaped(store, rows0, base, sent, id0, now)
    modifies store
    ensures store.Valid() && Shaped(store, rows0, base, sent + [n], id0, now)
    ensures store.details == old(store.details)
  {
    var row := store.NotifyUser(n.user, n.message, n.ntype, n.payload, now);
    assert NoticeRows(sent + [n], id0 + 1, now) == NoticeRows(sent, id0 + 1, now) + [row];
  }

  /** An in-place rewrite of the handler's base notification. */
  method RewriteBase(store: NotificationStore, k: nat, ghost rows0: seq<Notification>, base: Notification,
                     ghost sent: seq<Notice>, ghost id0: nat, now: int, message: string, ntype: string)
    returns (rewritten: Notification)
    requires store.Valid() && Shaped(store, rows0, base, sent, id0, now) && k == |rows0|
    modifies store
    ensures rewritten == base.(message := message, ntype := ntype)
    ensures store.Valid() && Shaped(store, rows0, rewritten, sent, id0, now)
    ensures store.details == old(store.details)
  {
    rewritten := base.(message := message, ntype := ntype);
    store.Replace(k, rewritten);
    assert store.rows == rows0 + [rewritten] + NoticeRows(sent, id0 + 1, now);
  }

  /** The first part of the handler: the base notification with its
      detail, the creation rewrite and confirmation, and the delivery
      rewrite. */
  method BaseAndConfirmation(store: NotificationStore, created: bool, order: Order, original: OriginalData,
                             snapshot: Payload, recipient: UserId, customerUser: UserId, now: int)
    returns (base: Notification, k: nat)
    requires store.Valid()
    modifies store
    ensures store.Valid()
    ensures k == |old(store.rows)|
    ensures base == Notification(old(store.nextId), recipient, RewrittenText(created, order, original).0,
                                 RewrittenText(created, order, original).1, false, now, None)
    ensures Shaped(store, old(store.rows), base, Confirmation(created, order, customerUser), old(store.nextId), now)
    ensures store.details == old(store.details) + [OrderNotification(old(store.nextId), order.id, snapshot, original)]
  {
    ghost var rows0 := store.rows;
    ghost var id0 := store.nextId;
    base := store.CreateOrderNotification(recipient, order.id, OrderText(order, "Order #", " update"),
                                          "order_status", snapshot, original, now);
    k := |store.rows| - 1;
    ghost var sent: seq<Notice> := [];
    assert Shaped(store, rows0, base, sent, id0, now);
    if created {
      base := RewriteBase(store, k, rows0, base, sent, id0, now, OrderText(order, "New order #", " placed"), "new_order");
      var n := Notice(customerUser, OrderText(order, "Order #", " confirmed!"), "order_confirmation",
                      Some(OrderPayload(order)));
      SendNotice(store, rows0, base, sent, id0, n, now);
      sent := sent + [n];
    }
    if Some(order.delivery) != original.delivery {
      base := RewriteBase(store, k, rows0, base, sent, id0, now, StatusChangeMessage(order, original), base.ntype);
    }
    assert sent == Confirmation(created, order, customerUser);
  }

  /** The payment part of the handler. */
  method SendPaymentNotices(store: NotificationStore, ghost rows0: seq<Notification>, ghost base: Notification,
                            ghost sent: seq<Notice>, ghost id0: nat, order: Order, original: OriginalData,
                            customerUser: UserId, vendorUser: Option<UserId>, now: int)
    requires store.Valid() && Shaped(store, rows0, base, sent, id0, now)
    modifies store
    ensures store.Valid()
    ensures Shaped(store, rows0, base, sent + PaymentNotices(order, original, customerUser, vendorUser), id0, now)
    ensures store.details == old(store.details)
  {
    var pay := PaymentNotice(order, original);
    if pay.Some? {
      var n := Notice(customerUser, pay.value.1, pay.value.0, Some(OrderPayload(order)));
      SendNotice(store, rows0, base, sent, id0, n, now);
      if vendorUser.Some? {
        var v := Notice(vendorUser.value, pay.value.1, VendorType(pay.value.0), Some(OrderPayload(order)));
        SendNotice(store, rows0, base, sent + [n], id0, v, now);
        assert sent + [n] + [v] == sent + PaymentNotices(order, original, customerUser, vendorUser);
      } else {
        assert sent + [n] == sent + PaymentNotices(order, original, customerUser, vendorUser);
      }
    } else {
      assert sent == sent + PaymentNotices(order, original, customerUser, vendorUser);
    }
  }

  /** `handle_order_notifications`, with the base notification's recipient
      (chosen by `create_order_notification`), the customer's user and the
      vendor's user as inputs. The base notification and its order detail
      are inserted first and rewritten in place by the later branches; the
      other notices are appended after it. */
  method HandleOrderNotifications(store: NotificationStore, created: bool, order: Order, original: OriginalData,
                                  snapshot: Payload, recipient: UserId, customerUser: UserId,
                                  vendorUser: Option<UserId>, now: int)
    requires store.Valid()
    modifies store
    ensures store.Valid()
    ensures var t := BaseText(created, order, original);
            var base := Notification(old(store.nextId), recipient, t.0, t.1, false, now, None);
            store.rows == old(store.rows) + [base]
                          + NoticeRows(OrderNotices(created, order, original, customerUser, vendorUser),
                                       old(store.nextId) + 1, now)
    ensures store.details == old(store.details) + [OrderNotification(old(store.nextId), order.id, snapshot, original)]
    ensures store.nextId == old(store.nextId) + 1 + |OrderNotices(created, order, original, customerUser, vendorUser)|
  {
    ghost var rows0 := store.rows;
    ghost var id0 := store.nextId;
    var base, k := BaseAndConfirmation(store, created, order, original, snapshot, recipient, customerUser, now);
    ghost var sent := Confirmation(created, order, customerUser);
    SendPaymentNotices(store, rows0, base, sent, id0, order, original, customerUser, vendorUser, now);
    sent := sent + PaymentNotices(order, original, customerUser, vendorUser);
    if original.payment != Some(PaymentFailed) && order.payment == PaymentFailed {
      base := RewriteBase(store, k, rows0, base, sent, id0, now, OrderText(order, "Order #", " cancelled"),
                          "order_cancellation");
    }
    assert sent == OrderNotices(created, order, original, customerUser, vendorUser);
  }
}
