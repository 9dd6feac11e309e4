# A marketplace back end, modelled in Dafny

This project models the core of a Django marketplace back end. Customers register and activate their accounts with an e-mail code, and they may upgrade to sellers. Sellers list products, and customers fill carts and turn them into orders. Reviews keep each seller's average rating up to date. As written, store/serializers.py and store/admin.py import models that store/models.py does not define, so the store's endpoints and admin cannot load; the store members describe them as they behave once those imports are repaired (see "Left out"). notifications/signals.py defines handlers meant to turn saves of orders, seller profiles and users into notifications, which users list, page through, read and update. As written, that file fails on import (see "Left out"), so none of its handlers is connected; the model describes them as they behave once the import is repaired. The handlers are methods on the notification table; only OTP activation is composed with its handler. A multicast push helper prunes device tokens the push service rejects.

The tables the source updates in place are classes whose methods change `seq` fields:

- `UserViews.Accounts`: users, OTP rows and profiles.
- `StoreCatalog.Catalog`: categories and products.
- `StoreCarts.Carts`: carts and cart items.
- `StoreOrders.Orders`: orders and order items.
- `StoreReviews.Reviews`: reviews and the sellers' rating column.
- `Notifications.NotificationStore`: notifications and order details.
- `Push.DeviceTable`: push devices.

Each method states its whole new state, and the tables' constraints are kept as `Valid()`:

- unique ids and e-mails;
- one OTP row per e-mail;
- one profile per user;
- one cart item per (cart, product);
- foreign keys that exist.

Validators, query filters, computed fields and message texts are functions with their own contracts. Lemmas relate them: round trips, idempotence, and "nothing else changes".

Units:

- Money is in integer cents; the source uses 2-place decimals.
- Ratings are in integer tenths; the source uses a 1-place decimal.
- Time is in integer seconds.
- User ids, product ids and other keys are naturals.

Randomness (the OTP draw), the clock (`now`) and the push service's answer are parameters.

Modules:

- `Common`: Option, Result, filtering, counting, digits, and Python's `str.strip()`, which every serializer CharField applies before validating.
- `Users` and `UserViews`: users/*.
- `StoreModels`, `StoreSerializers`, `StoreCatalog`, `StoreCarts`, `StoreOrders`, `StoreReviews`, `StoreAdmin`, `StorePermissions`: store/*.
- `Notifications`, `Push`, `Signals`: notifications/*.
- `AccountSignals`: OTP verification together with the activation signal it triggers.

## Model

| member | source | states |
|---|---|---|
| Users.SuperuserFields | users/models.py:22-29 | Accepted iff neither staff nor superuser is explicitly False. An explicit False for staff is refused as NotStaff, and for superuser as NotSuperuser. Accepted fields are staff and superuser, and `is_active` defaults to True. |
| Users.SuperuserDefaults | users/models.py:22-31 | A superuser built from accepted fields is staff and superuser. It is active unless `is_active=False` was passed. |
| Users.ValidateRegistration | users/serializers.py:23-37 | Each field is stripped of surrounding white space first. Accepted iff the e-mail is not blank and unused, neither password is blank, and the stripped passwords match. Non-blank data whose stripped passwords differ is a PasswordMismatch. The result keeps the stripped e-mail and password, and the role defaults to customer. |
| Users.RegistrationIgnoresPadding | users/serializers.py:23-25 | Surrounding white space never changes the outcome: a body and its stripped copy validate alike. |
| Users.FindUser | users/views.py:35-38 | `CustomUser.objects.get(email=…)`: the index found has that e-mail. None iff no user has it. |
| Users.OtpWindow | users/models.py:122-123 | A code is valid from its issue to exactly ten minutes later, inclusive. It is invalid one second after that. |
| Users.OtpIsValid | users/models.py:122-123 | Valid iff at most 600 seconds have passed since the code was issued, and always valid up to its issue time. |
| Users.GenerateOtp | users/utils.py:7-8 | The code is six digits with no leading zero, and it reads back as the drawn number. |
| Users.FindOtp | users/views.py:40-43 | `EmailOTP.objects.get(email=…)`: the index found has that e-mail. None iff no row has it. |
| Users.UpsertOtpSpec | users/utils.py:10-13 | `update_or_create` keeps one row per e-mail. The row for the e-mail is exactly the new one, and other e-mails' rows are unchanged. |
| Users.DeleteOtpSpec | users/views.py:64 | Deleting keeps one row per e-mail and leaves none for the e-mail. Every other e-mail's row stays. |
| Users.ValidateSellerProfile | users/serializers.py:67-85 | Each value is stripped first. Accepted iff the business name (at most 100 characters once stripped) and the phone (at most 15) are present and not blank. The data keeps the stripped values; an omitted address is blank. |
| Users.VerificationStatusIsReadOnly | users/serializers.py:80-85 | The `verification_status` a client sends never changes the validated data. |
| UserViews.VerifyDecisionActivates | users/views.py:30-49 | Once the e-mail and the code are stripped, verification activates iff neither is blank, the code has at most 6 characters, the user exists, and the stored OTP for the e-mail is in its window and carries the code. |
| UserViews.VerifyDecision | users/views.py:30-49 | The error cases, on the stripped e-mail and code: 400 iff either is blank or the code is longer than 6; user not found iff the request is well formed and no user has the e-mail. OTP not found means no row for the e-mail. Expired and invalid each mean a row for the e-mail that is out of its window, or in its window with another code. |
| UserViews.ResendReopensWindow | users/utils.py:10-13 | After a resend, the new code activates at any time up to ten minutes later, when submitted with the e-mail as the resend received it. |
| UserViews.ResendRevokesPreviousCode | users/utils.py:10-13 | After a resend, a code that does not strip to the new one never activates. |
| UserViews.StoredCodeActivates | users/views.py:30-53 | A stored OTP row in its window, holding 1 to 6 digits, activates when its code is submitted for a known e-mail. |
| UserViews.EnsureCustomerProfileSpec | users/views.py:56-58 | `get_or_create` leaves the user with exactly one profile. It keeps the existing rows and is idempotent. |
| UserViews.Accounts.CreateUser | users/models.py:11-20 | An empty e-mail is refused and a taken one is refused, both without change. Otherwise one row is added, with the model defaults for the fields not passed. |
| UserViews.Accounts.CreateSuperuser | users/models.py:22-31 | Refusals change nothing. A flag passed as False is refused as SuperuserFields says. With accepted flags, an empty e-mail is EmailMissing and a taken one EmailTaken. Otherwise exactly `NewUser` with the next id, the e-mail, the password and the prepared flags is appended: staff and superuser, and active unless `is_active=False` was passed. |
| UserViews.Accounts.SendOtpToEmail | users/utils.py:10-13 | The e-mail's OTP row is upserted with the drawn code and the current time. Nothing else changes. |
| UserViews.Accounts.Register | users/views.py:14-24 | A refused registration changes nothing. An accepted one adds an inactive user with the stripped e-mail and password and the requested or default role, and it upserts that e-mail's OTP. Valid data always succeeds. |
| UserViews.Accounts.SaveRegistration | users/serializers.py:39-49 | An inactive, non-staff user with the next id and the validated fields is appended, and its e-mail's OTP row is upserted. Profiles are unchanged. |
| UserViews.Accounts.SetInactive | users/serializers.py:47-48 | Exactly the one user row becomes inactive. |
| UserViews.Accounts.VerifyOtp | users/views.py:30-67 | The outcome is VerifyDecision's. A refusal changes nothing. On success: the user with the stripped e-mail is activated; one profile of its role exists (get_or_create); that e-mail's OTP row is deleted. |
| UserViews.Accounts.SetActive | users/views.py:52-53 | Exactly the one user row becomes active. |
| UserViews.Accounts.GetOrCreateCustomerProfile | users/views.py:56-58 | The customer profiles become EnsureCustomerProfile of the old ones. The other tables are unchanged. |
| UserViews.Accounts.GetOrCreateSellerProfile | users/views.py:59-61 | A user without a seller profile gets a blank, pending one; otherwise nothing changes. |
| UserViews.Accounts.DeleteOtpFor | users/views.py:64 | The OTP table becomes DeleteOtp of the old one. |
| UserViews.Accounts.ResendOtp | users/views.py:73-86 | The e-mail is stripped. A blank e-mail is a 400 and an unknown user a 404. An active user gets no OTP. An inactive user gets its OTP row upserted, and only then do the OTPs change. |
| UserViews.Accounts.UpgradeToSeller | users/views.py:92-106 | AlreadySeller iff the user is a seller, and InvalidProfile iff a customer sent an invalid body; both change nothing. A customer with a valid body has its role set to seller. It then gets a new pending profile holding the validated data (Upgraded), unless it already has a profile: that conflict keeps the saved role and adds no profile. |
| UserViews.Accounts.SetSellerRole | users/views.py:100-101 | Exactly that user's role becomes seller. |
| UserViews.Accounts.AddSellerProfile | users/views.py:103 | A pending profile with the next id and the validated data is appended. Users, OTPs and customer profiles are unchanged. |
| AccountSignals.VerifyOtpAndNotify | users/views.py:51-53 | The outcome is VerifyDecision's, and a refusal changes neither the accounts nor the notifications. On success the user is activated and its OTP row deleted. Exactly one "account" notification is added for the user, unless it was already active before the save. |
| StoreModels.NewOrder | store/models.py:70-82 | A new order has payment pending and delivery preparing. |
| StoreModels.CalculateTotalAmount | store/models.py:87-92 | An order without items totals 0, and non-negative lines give a non-negative total. |
| StoreModels.CalculateTotalIgnoresOtherOrders | store/models.py:87-92 | Rows of other orders never change an order's total. |
| StoreModels.FreshOrderTotal | store/models.py:87-92 | The total of an order whose items are all new is the sum of those items, whatever the table already holds. |
| StoreModels.PricedItems | store/views.py:137-146 | One order item per cart item, in order: same product and quantity, the product's current price, consecutive ids. |
| StoreModels.CartItemTotalPrice | store/serializers.py:214-215 | Quantity 0 costs nothing, and a positive quantity costs at least one unit price (for a non-negative price). |
| StoreModels.CartTotal | store/serializers.py:237-238 | The cart total is non-negative when quantities and the products' prices are. |
| StoreModels.CartTotalSplit | store/serializers.py:237-238 | `sum` over the items splits over any division of the cart: the total of a + b is the total of a plus the total of b. |
| StoreModels.PricedItemsKeepTotal | store/serializers.py:237-238 | The priced order items total exactly the cart's total. |
| StoreModels.Summarize | store/models.py:150-154 | NULL ratings are skipped. The summary is empty iff every rating is NULL; otherwise it is the count and sum of the rated values. |
| StoreModels.VendorRating | store/models.py:147-156 | The vendor's summary is empty iff no rated review is of one of the vendor's products. |
| StoreSerializers.ValidateRating | store/serializers.py:129-132 | Accepted iff 1.0 <= rating <= 5.0, and the value is kept. A null that reaches the validator raises. |
| StoreSerializers.ValidateReviewRating | store/serializers.py:110-132 | An omitted rating skips the validator and is stored as NULL. A given rating is stored iff `validate_rating` accepts it, and only within 1.0..5.0. An explicit null raises. |
| StoreSerializers.ValidateDeal | store/serializers.py:373-377 | A percentage or fixed deal passes iff its discount value is present and non-zero. Other types always pass. |
| StoreSerializers.ValidateValidUntil | store/serializers.py:379-389 | None stays None. A string passes iff it parses, and keeps the parsed time. A datetime passes unchanged. Anything else is refused. |
| StoreSerializers.VendorName | store/serializers.py:101-102 | None iff there is no vendor or its business name is empty; otherwise the business name. |
| StoreSerializers.ReviewCount | store/serializers.py:104-105 | At most the number of reviews. Zero iff no review is of the product. |
| StoreSerializers.ProductAverageRating | store/serializers.py:107-109 | No average (shown as 0) iff every review of the product has a NULL rating. Otherwise the average is over between 1 and ReviewCount ratings. |
| StoreSerializers.ProductRatingsSpec | store/serializers.py:107-108 | The aggregated column has one entry per review of the product, and each entry is one of those reviews' ratings. |
| StoreSerializers.UnreviewedProduct | store/serializers.py:107-109 | A product without reviews has average 0 (no ratings) and count 0. |
| StoreSerializers.ValidateCartItem | store/serializers.py:204-212 | Accepted iff a product id is given and the quantity is an integer in 1..32767. The pair is kept. |
| StoreSerializers.ViewOrderData | store/views.py:127-130 | The data the view builds has no `items`. |
| StoreSerializers.OrderSerializerAccepts | store/serializers.py:164-184 | Data without `items` or without a customer is always refused. An accepted address strips to a non-empty string. |
| StoreSerializers.ViewOrderDataAlwaysRejected | store/views.py:127-133 | OrderSerializer refuses the view's data for every customer and address. |
| StoreSerializers.OrderFieldsMatchSerializer | store/serializers.py:164-184 | The intended check (an address that strips to something non-empty) accepts exactly what the serializer accepts once the cart's items are attached. |
| StoreCatalog.ProductsIn | store/views.py:88 | Exactly the products filed under the category. |
| StoreCatalog.DestroyDecision | store/views.py:83-93 | Forbidden iff the requester is not an authenticated admin. Not found iff no such category. Deleted iff the category exists and no product is filed under it. |
| StoreCatalog.VisibleProducts | store/views.py:47-56 | A seller sees exactly its own products; everybody else sees all of them. |
| StoreCatalog.Catalog.DestroyCategory | store/views.py:85-93 | The outcome is DestroyDecision's. Only a deletion removes the category, and the products never change. |
| StoreCatalog.Catalog.CreateProduct | store/views.py:58-63 | Authentication first. Then field validation: a title not blank and at most 255 characters once stripped, an existing category, and a `vendor` that is omitted or names an existing seller profile. Then a seller profile is needed. A product is appended iff all hold. It has the stripped title and the requester's profile as vendor, whatever vendor the body named. A refusal changes nothing. |
| StoreCatalog.Catalog.AppendProduct | store/views.py:61 | A product with the next id and the given fields is appended; categories are unchanged. |
| StoreCarts.CartItemsOf | store/views.py:218-221 | Exactly the items of the cart. |
| StoreCarts.FindCartItem | store/views.py:234 | The index found is the item of that product in that cart. None iff there is none. |
| StoreCarts.Carts.CreateItem | store/serializers.py:217-226 | A missing cart id is refused. A row is appended iff the cart and the product exist and the pair has no item yet. |
| StoreCarts.Carts.AddItem | store/views.py:227-240 | A non-integer quantity is refused. An existing item gets the requested quantity (default 1) added, unchecked but for the column's range. Otherwise the body is validated and one row is created. The table grows only on creation. |
| StoreCarts.Carts.DeleteCart | store/views.py:196-207 | The cart and exactly its items go (CASCADE); other carts' items stay. |
| StoreCarts.FilterKeepsOneItemPerPair | store/models.py:116-117 | Removing a cart's items keeps one item per (cart, product). |
| StoreOrders.VisibleOrders | store/views.py:104-116 | A customer sees its own orders. A seller sees exactly the orders holding one of its products. Anybody else sees none. |
| StoreOrders.CanSeeOrderMatchesQueryset | store/views.py:104-116 | CanSeeOrder, the lookup behind update, delete and retrieve, reaches exactly the stored orders get_queryset lists. |
| StoreOrders.VisibleOrdersOnce | store/views.py:111-114 | Each reachable order is listed once. |
| StoreOrders.LineItems | store/serializers.py:189-201 | One item per line: its product and quantity, at the product's current price. |
| StoreOrders.PriceCartItems | store/views.py:137-146 | The loop yields exactly PricedItems. |
| StoreOrders.Orders.CreateOrder | store/serializers.py:144-151 | Without a customer profile it is refused with no change. Otherwise a defaulted order for that customer is appended. |
| StoreOrders.Orders.CreateNested | store/serializers.py:164-201 | One new order with the next id, the customer and the address; a payment or delivery status the body gives is stored, and an omitted one takes the column default. Then exactly LineItems of its lines are appended. |
| StoreOrders.Orders.ConvertCart | store/views.py:118-151 | The guards run in the source's order, and a refusal changes nothing. On success, one order with the stripped address and the cart's priced items are added. The order's total equals the cart's total, and the cart and its items are deleted. |
| StoreOrders.Orders.BulkCreate | store/views.py:148 | The rows are appended as given. |
| StoreOrders.Orders.DeleteOrder | store/models.py:96 | Refused while an item or an order notification points at the order. Otherwise only that order is removed. |
| StoreOrders.Orders.UpdateStatus | store/views.py:153-162 | Forbidden iff the requester is anonymous, and not found iff no stored order with the id is reachable by it. Otherwise the reachable order is updated: a status not sent keeps its value, and nothing else changes. |
| StoreReviews.VisibleReviews | store/views.py:173-183 | Under a product, that product's reviews. Otherwise a customer's own reviews, or none. |
| StoreReviews.SaveRow | store/models.py:138 | The review is stored, replacing only a row with its id. |
| StoreReviews.DeleteRow | store/models.py:144 | Exactly the rows with the id go. |
| StoreReviews.Reviews.UpdateVendorRating | store/models.py:147-156 | `vendor or product.vendor`: with neither, it fails unchanged. Otherwise only that vendor's rating becomes VendorRating over all of its products. |
| StoreReviews.Reviews.SaveReview | store/models.py:136-139 | A review of a missing product is refused unchanged. Otherwise the row is saved and the vendor's rating recomputed. A product without a vendor fails after the write. |
| StoreReviews.Reviews.DeleteReview | store/models.py:141-145 | ReviewMissing iff no review has the id, and ProductMissing iff that review's product is gone; both change nothing. Otherwise the review is deleted. The vendor read before the deletion gets its rating recomputed without the review, and that vendor is returned. A product without a vendor raises after the deletion, with ratings unchanged. |
| StoreReviews.Reviews.PerformCreate | store/views.py:185-193 | The review is saved for the requester as a new row (its id is not yet stored). A vendored product succeeds, and that vendor's rating is then overwritten with this product's average alone. A missing product is refused with no change. A vendorless product raises after the row is saved, with ratings unchanged. |
| StoreReviews.VendorRatingIgnoresOthers | store/models.py:150-153 | A review of another vendor's product does not change a vendor's ratings. |
| StoreAdmin.InventoryStatus | store/admin.py:65-67 | "Low" iff inventory < 10, "OK" iff >= 10. |
| StoreAdmin.RatingColumn | store/admin.py:69-72 | A dash iff the average is absent or zero; otherwise that average. |
| StoreAdmin.UnratedProductShowsDash | store/admin.py:69-72 | A product without reviews shows the dash. |
| StoreAdmin.PaymentColour | store/admin.py:138-141 | Green iff the payment is complete, red otherwise. |
| StoreAdmin.DeliveryColour | store/admin.py:143-146 | Green iff delivered, orange otherwise. |
| StoreAdmin.InventoryCleared | store/admin.py:74-77 | Exactly the selected products get inventory 0; the others are unchanged. |
| StoreAdmin.InventoryClearedIdempotent | store/admin.py:74-77 | Clearing twice is clearing once. |
| StoreAdmin.ClearInventory | store/admin.py:74-77 | The products become InventoryCleared, and the count reported is the number of selected rows. |
| StoreAdmin.MarkedCompleted | store/admin.py:152-155 | Exactly the selected orders become paid and delivered. |
| StoreAdmin.MarkAsCompleted | store/admin.py:152-155 | The orders become MarkedCompleted, the items are unchanged, and the count reported is the number of selected rows. |
| StoreAdmin.MarkedCompletedKeepsIds | store/admin.py:154 | The update keeps the set of order ids. |
| StoreAdmin.SaveFormset | store/admin.py:157-163 | Each instance is saved in order. A missing or zero price is filled from the product, and any other price is kept. |
| StorePermissions.HasCategoryPermission | store/permissions.py:11-21 | Safe methods are always allowed. An authenticated POST needs staff or seller. Anything else needs staff. |
| StorePermissions.SellerCreatesOnly | store/permissions.py:16-21 | A non-staff seller may create categories but never update or delete them. An anonymous POST is refused. |
| StorePermissions.StaffAndCustomers | store/permissions.py:11-21 | Staff may do anything. A non-staff customer may only read. |
| Notifications.Unread | notifications/models.py:6-7 | Exactly the unread rows. |
| Notifications.StoredPayload | notifications/utils.py:8 | Never NULL. The empty object iff the payload is missing or empty; otherwise the payload. |
| Notifications.MarkedRead | notifications/models.py:9-10 | Exactly the user's unread rows become read. |
| Notifications.MarkedReadSpec | notifications/models.py:9-10 | Afterwards the user has no unread row and other users' rows are unchanged. Marking again changes nothing. |
| Notifications.SortNewestFirst | notifications/models.py:43-44 | The same rows (a permutation), newest first. |
| Notifications.ListFor | notifications/api.py:15-16 | Newest first, and a permutation of the requester's rows. |
| Notifications.ListForMembers | notifications/api.py:15-16 | The list holds exactly the requester's rows. |
| Notifications.PageCount | notifications/api.py:7-8 | At least one page. The pages hold the list, and no page after the last row is needed. |
| Notifications.Page | notifications/api.py:7-8 | A page exists iff its number is in 1..PageCount. It holds at most 10 rows, and exactly 10 unless it is the last. |
| Notifications.PagesCoverList | notifications/api.py:7-8 | Row i is entry i mod 10 of page i div 10 + 1. |
| Notifications.DetailFor | notifications/api.py:22-23 | The row found is the requester's with that id. None iff the requester has no such row. |
| Notifications.OthersRowsHidden | notifications/api.py:22-23 | Another user's notification is never found. |
| Notifications.ValidateUpdate | notifications/serializers.py:4-8 | In accepted data, a message that is given is non-blank, and a type that is given is one of the choices. A full update must give both. A refusal names one of these failures. |
| Notifications.Updated | notifications/api.py:25-26 | The row is read, whatever the body says. A given message is written stripped and a given type as sent; id, owner, time and payload are kept. |
| Notifications.SellerBatch | notifications/utils.py:11-20 | One row per seller. |
| Notifications.SellerBatchRecipients | notifications/utils.py:13-20 | Every seller gets the notice and nobody else does. |
| Notifications.SellerBatchContents | notifications/utils.py:14-20 | All rows are unread, carry the message, type, time and stored payload, and differ only in the user. |
| Notifications.ReferencedOrders | notifications/models.py:58-62 | Exactly the orders some order notification points at. |
| Notifications.NotificationStore.Create | notifications/models.py:33-38 | One unread row with a fresh id and the current time is appended. |
| Notifications.NotificationStore.NotifyUser | notifications/utils.py:3-9 | One unread row whose payload is the StoredPayload is appended. |
| Notifications.NotificationStore.NotifySellers | notifications/utils.py:11-21 | The loop builds SellerBatch, which is appended in one insertion. |
| Notifications.NotificationStore.Append | notifications/utils.py:14 | The batch is appended, keeping ids unique. |
| Notifications.NotificationStore.MarkAllAsRead | notifications/api.py:31-33 | The rows become MarkedRead, and the count reported is the number of rows marked. |
| Notifications.NotificationStore.MarkAsRead | notifications/models.py:49-51 | Found iff the id exists. Only that row becomes read; otherwise nothing changes. |
| Notifications.NotificationStore.PerformUpdate | notifications/api.py:18-26 | Another user's row is a 404 and an invalid body a 400, both without change. Otherwise only that row becomes Updated. |
| Notifications.NotificationStore.CreateOrderNotification | notifications/models.py:52-65 | A notification without payload, and its one order detail, are appended. |
| Notifications.NotificationStore.DeleteNotification | notifications/models.py:53-57 | The row goes, and its order detail with it (CASCADE). |
| Notifications.NotificationStore.DeleteUserRows | notifications/models.py:33 | All of the user's rows and their order details go (CASCADE). |
| Push.BuildMulticast | notifications/fcm_admin.py:14-21 | The tokens, title and body are carried over. The data is the payload, or empty when there is none. |
| Push.FailedTokens | notifications/fcm_admin.py:26-31 | Exactly the tokens whose examined response failed. |
| Push.FirstUnmatchedFailure | notifications/fcm_admin.py:29 | The first failed response past the last token, where `device_tokens[idx]` raises. None iff every such response succeeded. |
| Push.Evicted | notifications/fcm_admin.py:26-31 | Exactly the devices whose token did not fail. |
| Push.EvictedSpec | notifications/fcm_admin.py:26-31 | A device stays iff no examined failed response carries its token. |
| Push.SendAsWritten | notifications/fcm_admin.py:6-35 | As written, the device table is never changed. The result is present iff the tokens are non-empty and every response succeeded. |
| Push.StaleTokenSurvives | notifications/fcm_admin.py:30-31 | A device whose token failed is still there afterwards. |
| Push.DeviceTable.Send | notifications/fcm_admin.py:6-35 | Empty tokens or a raising send return None with no change. Otherwise the devices become Evicted up to the last examined response. The result is present iff no failure lies past the last token. |
| Signals.NoticeRows | notifications/utils.py:3-9 | One unread row per notice, in order, with consecutive ids and the stored payload. |
| Signals.VerificationMessage | notifications/signals.py:16-19 | Only verified and rejected profiles have a message. |
| Signals.SellerVerificationNotice | notifications/signals.py:11-27 | A notice iff the profile is not new and its status changed to verified or rejected. The notice goes to its user, typed "account", with the status's message and its `seller_id`. |
| Signals.SellerVerificationAsWritten | notifications/signals.py:12-15 | As written, no notice is ever produced. |
| Signals.VerificationNeverNotifiedAsWritten | notifications/signals.py:13-15 | A pending profile that is verified gets no notice as written, but it does with the status before the save. |
| Signals.HandleSellerVerification | notifications/signals.py:10-29 | Exactly SellerVerificationNotice's row is added, or none, and the id counter advances by the rows added. |
| Signals.PreviousIsActive | notifications/signals.py:32-38 | The stored `is_active`, or None iff the user is not stored yet. |
| Signals.ActivationOnlyOnTransition | notifications/signals.py:42 | The notice fires iff the user is stored, was inactive, is not new, and is now active. |
| Signals.HandleUserActivation | notifications/signals.py:40-47 | One "account" row without payload iff the condition holds; otherwise no change. |
| Signals.CaptureOriginal | notifications/signals.py:50-79 | A stored order gives its delivery and payment, cancelled iff the payment failed. A new one gives None, None, not cancelled. |
| Signals.DecimalText | notifications/signals.py:65 | A non-negative amount prints as units, a point and two digits. A negative one prints with a leading minus. |
| Signals.DecimalTextRoundTrip | notifications/signals.py:65 | Reading the printed amount back gives the cents. |
| Signals.TotalText | notifications/signals.py:68 | "0" for an order without items; otherwise its total amount printed. |
| Signals.ItemEntries | notifications/signals.py:61-67 | One entry per item of the order, in order. |
| Signals.CaptureSnapshot | notifications/signals.py:60-80 | Empty for a new order. Otherwise the five keys: the ItemEntry of each own item in order, the total text, the address, the new payment code, and the vendor (null iff none). |
| Signals.SnapshotTotal | notifications/signals.py:68 | An order with items has its total amount printed in the snapshot. |
| Signals.CaptureAsWritten | notifications/signals.py:50-80 | As written, the capture fails iff the order is already stored. |
| Signals.StatusUpdateFailsAsWritten | notifications/signals.py:71 | As written, saving a stored order fails whatever changed. The corrected capture yields the order's stored statuses. |
| Signals.RewrittenText | notifications/signals.py:99-117 | The type is "new_order" on creation and "order_status" otherwise. A delivery change replaces the message. |
| Signals.BaseText | notifications/signals.py:148-152 | A move into failed payment overrides the message and the type. |
| Signals.PaymentNotice | notifications/signals.py:120-130 | A notice iff the payment changed to complete or failed, with the matching type and message. |
| Signals.Confirmation | notifications/signals.py:104-109 | A confirmation iff the order is new. |
| Signals.PaymentNotices | notifications/signals.py:132-145 | The customer's notice, then the vendor's when there is a vendor. The vendor's is typed payment_received or restaurant_order_cancellation. |
| Signals.OrderNotices | notifications/signals.py:98-145 | The notice count follows creation, the payment change and the vendor, and each notice carries the order id. |
| Signals.NewOrderNotices | notifications/signals.py:99-117 | A new order's base notification announces "None → PREPARING" typed "new_order". Only the confirmation is sent. |
| Signals.FailedPaymentNotices | notifications/signals.py:120-152 | A failed payment cancels the base notification. The customer hears of the failure, and the vendor of a cancellation. |
| Signals.UnchangedOrderNotices | notifications/signals.py:112-130 | A save that changes no status adds only the base "update" notification. |
| Signals.BaseAndConfirmation | notifications/signals.py:90-117 | The base notification with its detail, rewritten by creation and delivery change, then the confirmation. |
| Signals.SendPaymentNotices | notifications/signals.py:119-145 | Exactly PaymentNotices are appended. |
| Signals.HandleOrderNotifications | notifications/signals.py:83-157 | Appended: the base notification with BaseText, then OrderNotices' rows. One order detail is added. |

## Left out

- I/O is not modelled: sending mail, logging, the push service's network call and Firebase initialisation. The OTP draw, the clock and the push reply are inputs.
- Password hashing and `normalize_email` are not modelled: passwords are kept as given and e-mails compared as given.
- Field validation of e-mail syntax and of choice fields is reduced to presence and non-blankness.
- `create_order_notification` is imported by notifications/signals.py:4 from notifications/utils.py, which does not define it. Importing notifications/signals.py therefore raises ImportError, so as written none of its receivers is ever registered and no save raises a notification. Every `Signals` handler, `AccountSignals.VerifyOtpAndNotify` and Findings 2 and 4 describe the code with that import repaired. The missing function is modelled as `NotificationStore.CreateOrderNotification`: a notification without payload plus its order detail. The base notification's recipient is an input.
- `status_before`/`status_after` of OrderNotification are not modelled; the detail row keeps the captured statuses instead.
- Order has no `vendor`, so the vendor's business name and user are inputs of the signal handlers.
- Signals.HandleOrderNotifications: an exception inside the handler (lines 154-157) is logged and swallowed. The partial effects of such an exception are not modelled.
- The notification types "account" and "order_status" that the handlers store are not among the choices. The model stores them as the source does; only the API's serializer checks the choices.
- Notifications.ValidateUpdate: DRF's parsing of `is_read` is not modelled. `is_read` is overwritten with True either way.
- StoreSerializers.ProductAverageRating: the average is kept as a sum and a count. The division and `round(avg, 1)` are left out, and NoRatings stands for the 0 the serializer returns.
- StoreModels.VendorRating: the rating is kept as a sum and a count. The division and `round(avg, 2)` are left out, and so is the `:.1f` formatting in StoreAdmin.RatingColumn.
- The admin's `total_amount` text ("Rs." and the total) and its HTML formatting are not modelled.
- ProductViewSet.perform_create raises `PermissionDenied`, which store/views.py does not import. The model returns NotASeller; the NameError this would raise is not distinguished.
- StorePermissions.HasCategoryPermission: CategoryPermission is not attached to any view; CategoryViewSet uses IsAdminUser, and that is what `StoreCatalog.DestroyDecision` checks.
- StoreCarts.Carts.AddItem: the merge path adds the quantity without validation. Only the column's range (0..32767) refuses the sum, as the database would.
- store/serializers.py:5-17 imports `Deal` and `Feedback`, and store/admin.py:5-15 imports `Feedback`, from store/models.py, which defines neither. As written, importing store/serializers.py raises ImportError, so store/views.py (which imports it) and store/urls.py cannot load and no store endpoint exists; admin autodiscovery of store/admin.py fails the same way. Every member of `StoreSerializers`, `StoreCatalog`, `StoreCarts`, `StoreOrders`, `StoreReviews`, `StoreAdmin` and `StorePermissions`, and Finding 1, describes the code with those imports repaired. The Deal validators are modelled on their own; the Feedback serializer has no logic.
- Images, image URLs and thumbnails are not modelled, nor are favourites' and products' read-only display fields beyond the vendor name, review count and average.
- Foreign keys to products that must exist are preconditions (`ProductsExist`, `ItemEntry`), as the database guarantees them.
- Not part of this model: payments, store/signals.py, users/admin.py, ProfileView and djoser's serializers.
- Push.DeviceTable.Send: the JSON string-value requirement on FCM `data` is not modelled.
- StoreOrders.Orders.UpdateStatus: the save is modelled as the corrected pre_save capture allows it. Once the import at notifications/signals.py:4 is repaired, the capture as written makes this save raise (Finding 4); with the import as written no receiver is registered and the save succeeds. The order signal handlers the save triggers are not run here; `Signals.HandleOrderNotifications` models them on the notification table.
- StoreOrders.Orders.ConvertCart: creating the order triggers `Signals.HandleOrderNotifications` (a new order), which this method does not run.
- StoreOrders.Orders.CreateOrder: the same; the new-order notifications are modelled only by `Signals.HandleOrderNotifications` and `Signals.NewOrderNotices`.
- StoreOrders.Orders.CreateNested: the same.
- UserViews.Accounts.VerifyOtp: the activation notification is not added here; `AccountSignals.VerifyOtpAndNotify` composes this method with `Signals.HandleUserActivation`.
- UserViews.Accounts.Register: its saves are not composed with the activation handler, which adds nothing for them: a new user, then an inactive user saved inactive (`Signals.ActivationOnlyOnTransition`).
- UserViews.Accounts.UpgradeToSeller: its saves are not composed with the handlers, which add nothing for them: an unchanged `is_active`, and a new profile (`Signals.SellerVerificationNotice`). The admin update that verifies a profile belongs to users/admin.py, which is not part of this model.
- `Common.IsSpace` lists the characters for which Python's `str.isspace()` holds; Unicode data beyond that list is not modelled.

## Findings

| source | as written | input that shows it | evidently intended | confidence | as-written member | corrected member |
|---|---|---|---|---|---|---|
| store/views.py:127-134 | Once the imports at store/serializers.py:5-17 are repaired: OrderViewSet.create hands OrderSerializer a customer and an address, but the serializer's nested `items` field is required. `is_valid(raise_exception=True)` therefore refuses every conversion. | any non-empty cart, with a customer profile and an address | the order is validated on the view's fields; the cart's items then become its items | high; not executed | StoreSerializers.ViewOrderDataAlwaysRejected | StoreOrders.Orders.ConvertCart |
| notifications/signals.py:13-15 | Once the import at notifications/signals.py:4 is repaired: the post_save handler re-reads the seller profile after the save has stored it. The "old" status always equals the new one, so no verification notice is ever sent. | a pending profile, not new, saved with status verified | compare with the status before the save, and notify of verified or rejected | high; not executed | Signals.VerificationNeverNotifiedAsWritten | Signals.HandleSellerVerification |
| notifications/fcm_admin.py:30-31 | The clean-up imports UserDevice from notifications/models.py, which defines no such model. The ImportError is caught by the broad handler: the call returns None and no device is deleted. | tokens ["stale"], with the push reply [failure] | delete the devices whose token failed, and return the response | medium; not executed | Push.StaleTokenSurvives | Push.DeviceTable.Send |
| notifications/signals.py:71 | Once the import at notifications/signals.py:4 is repaired: the pre_save snapshot reads `instance.vendor`, which Order does not have. The AttributeError is not the DoesNotExist the handler catches, so saving any stored order fails. | a stored order with payment pending, saved with payment complete | the snapshot records the vendor's business name, or null | high; not executed | Signals.StatusUpdateFailsAsWritten | Signals.CaptureSnapshot |
