/** Notifications: the Notification and OrderNotification tables with their
    manager (notifications/models.py), the helpers that create rows
    (notifications/utils.py) and the endpoints that list, read and update
    them (notifications/api.py, notifications/serializers.py). */
module Notifications {
  import opened Common
  import opened Users
  import opened StoreModels

  /** A JSON value as a JSONField stores it. */
  datatype Json =
    | JNull
    | JBool(b: bool)
    | JInt(i: int)
    | JStr(s: string)
    | JList(elems: seq<Json>)
    | JObject(fields: map<string, Json>)

  type Payload = map<string, Json>

  /** The sixteen `TYPE_CHOICES` codes. The column itself is a plain
      character field: `objects.create` does not check the choices, so the
      signal handlers store codes such as "account" and "order_status" that
      are not among them. Only the API's serializer enforces them. */
  const TypeChoices: seq<string> := [
    "order_confirmation", "order_status_change", "delivery_delay", "order_cancellation",
    "payment_success", "payment_failed", "refund_processed", "discount_offer",
    "new_restaurant", "review_reminder", "restaurant_reply",
    "new_order", "restaurant_order_cancellation", "new_review", "low_stock", "payment_received"
  ]

  /** A Notification row. `payload` is None for SQL NULL. */
  datatype Notification = Notification(id: nat, user: UserId, message: string, ntype: string,
                                       isRead: bool, createdAt: int, payload: Option<Payload>)

  /** The order statuses captured before a save (`original_statuses`). */
  datatype OriginalData = OriginalData(delivery: Option<DeliveryStatus>, payment: Option<PaymentStatus>,
                                       isCancelled: bool)

  /** An OrderNotification row: one per notification (OneToOne), pointing
      at an order that it protects from deletion. */
  datatype OrderNotification = OrderNotification(notification: nat, order: OrderId, snapshot: Payload,
                                                 original: OriginalData)

  // ---------------------------------------------------------------------
  // Pure views of the table
  // ---------------------------------------------------------------------

  /** `Notification.objects.unread()`. */
  function Unread(rows: seq<Notification>): (r: seq<Notification>)
    ensures forall n :: n in r <==> n in rows && !n.isRead
  {
    Filter(rows, (n: Notification) => !n.isRead)
  }

  /** The rows `mark_all_as_read(user)` selects: the user's unread ones. */
  function UnreadOf(user: UserId): Notification -> bool {
    (n: Notification) => n.user == user && !n.isRead
  }

  /** What `notify_user` and `notify_sellers` store: `payload or {}`, so a
      missing or empty payload becomes the empty object, never NULL. */
  function StoredPayload(payload: Option<Payload>): (r: Option<Payload>)
    ensures r.Some?
    ensures r.value == map[] <==> payload.None? || payload.value == map[]
    ensures payload.Some? && payload.value != map[] ==> r == payload
  {
    if payload.None? || payload.value == map[] then Some(map[]) else payload
  }

  /** The table after `filter(user=user, is_read=False).update(is_read=True)`. */
  function MarkedRead(rows: seq<Notification>, user: UserId): (r: seq<Notification>)
    ensures |r| == |rows|
    ensures forall i :: 0 <= i < |rows| ==>
              && (UnreadOf(user)(rows[i]) ==> r[i] == rows[i].(isRead := true))
              && (!UnreadOf(user)(rows[i]) ==> r[i] == rows[i])
  {
    seq(|rows|, i requires 0 <= i < |rows| =>
      if UnreadOf(user)(rows[i]) then rows[i].(isRead := true) else rows[i])
  }

  /** After marking, the user has no unread row left, every other user's
      rows are as they were, and a second marking changes nothing and
      reports 0. */
  lemma MarkedReadSpec(rows: seq<Notification>, user: UserId)
    ensures Count(MarkedRead(rows, user), UnreadOf(user)) == 0
    ensures forall i :: 0 <= i < |rows| && rows[i].user != user ==> MarkedRead(rows, user)[i] == rows[i]
    ensures MarkedRead(MarkedRead(rows, user), user) == MarkedRead(rows, user)
  {
    var r := MarkedRead(rows, user);
    forall n | n in r ensures !UnreadOf(user)(n) {
      var i :| 0 <= i < |r| && r[i] == n;
    }
  }

  /** Newest first (`ordering = ['-created_at']`). */
  predicate NewestFirst(s: seq<Notification>) {
    forall i, j :: 0 <= i < j < |s| ==> s[i].createdAt >= s[j].createdAt
  }

  function InsertByDate(n: Notification, s: seq<Notification>): (r: seq<Notification>)
    requires NewestFirst(s)
    ensures NewestFirst(r)
    ensures multiset(r) == multiset(s) + multiset{n}
    ensures |r| == |s| + 1
  {
    if s == [] || n.createdAt >= s[0].createdAt then
      InsertAtHead(n, s);
      [n] + s
    else
      HeadIsNewest(s);
      var t := InsertByDate(n, s[1..]);
      InsertBehindHead(n, s, t);
      [s[0]] + t
  }

  /** A row no older than the head of a sorted list goes in front. */
  lemma InsertAtHead(n: Notification, s: seq<Notification>)
    requires NewestFirst(s)
    requires s == [] || n.createdAt >= s[0].createdAt
    ensures NewestFirst([n] + s)
    ensures multiset([n] + s) == multiset(s) + multiset{n}
  {
    HeadIsNewest(s);
    PrependNewest(n, s);
  }

  /** A row older than the head goes into the tail: the head stays in front
      of the tail with the row inserted. */
  lemma InsertBehindHead(n: Notification, s: seq<Notification>, t: seq<Notification>)
    requires NewestFirst(s) && s != [] && n.createdAt < s[0].createdAt
    requires NewestFirst(t) && multiset(t) == multiset(s[1..]) + multiset{n}
    ensures NewestFirst([s[0]] + t)
    ensures multiset([s[0]] + t) == multiset(s) + multiset{n}
  {
    HeadIsNewest(s);
    assert s == [s[0]] + s[1..];
    BoundOverInsert(s[0], s[1..], n, t);
    PrependNewest(s[0], t);
  }

  /** The head of a sorted list is no older than any of its rows, and its
      tail is sorted. */
  lemma HeadIsNewest(s: seq<Notification>)
    requires NewestFirst(s)
    ensures s != [] ==> NewestFirst(s[1..])
    ensures s != [] ==> forall x :: x in s ==> s[0].createdAt >= x.createdAt
  {
    if s != [] {
      forall x | x in s ensures s[0].createdAt >= x.createdAt {
        var j :| 0 <= j < |s| && s[j] == x;
      }
      forall i, j | 0 <= i < j < |s[1..]| ensures s[1..][i].createdAt >= s[1..][j].createdAt {
        assert s[1..][i] == s[i + 1] && s[1..][j] == s[j + 1];
      }
    }
  }

  /** A bound on every row of `u` and on `n` bounds every row of a list
      holding exactly those. */
  lemma BoundOverInsert(h: Notification, u: seq<Notification>, n: Notification, t: seq<Notification>)
    requires multiset(t) == multiset(u) + multiset{n}
    requires forall x :: x in u ==> h.createdAt >= x.createdAt
    requires h.createdAt >= n.createdAt
    ensures forall x :: x in t ==> h.createdAt >= x.createdAt
  {
    forall x | x in t ensures h.createdAt >= x.createdAt {
      assert x in multiset(t);
      if x != n {
        assert x in multiset(u);
      }
    }
  }

  /** A row no older than any of a sorted list may go in front of it. */
  lemma PrependNewest(h: Notification, t: seq<Notification>)
    requires NewestFirst(t)
    requires forall x :: x in t ==> h.createdAt >= x.createdAt
    ensures NewestFirst([h] + t)
  {
    var r := [h] + t;
    forall i, j | 0 <= i < j < |r| ensures r[i].createdAt >= r[j].createdAt {
      assert r[j] == t[j - 1];
      if i > 0 {
        assert r[i] == t[i - 1];
      } else {
        assert t[j - 1] in t;
      }
    }
  }

  /** `order_by('-created_at')`: the same rows, newest first. */
  function SortNewestFirst(s: seq<Notification>): (r: seq<Notification>)
    ensures NewestFirst(r)
    ensures multiset(r) == multiset(s)
  {
    if s == [] then []
    else
      assert s == [s[0]] + s[1..];
      InsertByDate(s[0], SortNewestFirst(s[1..]))
  }

  /** NotificationListAPI.get_queryset: the requester's rows, newest first. */
  function ListFor(rows: seq<Notification>, user: UserId): (r: seq<Notification>)
    ensures NewestFirst(r)
    ensures multiset(r) == multiset(Filter(rows, (n: Notification) => n.user == user))
  {
    SortNewestFirst(Filter(rows, (n: Notification) => n.user == user))
  }

  /** The list holds exactly the requester's rows: nobody sees another
      user's notification and none of the requester's is missing. */
  lemma ListForMembers(rows: seq<Notification>, user: UserId)
    ensures forall n :: n in ListFor(rows, user) <==> n in rows && n.user == user
  {
    var f := Filter(rows, (n: Notification) => n.user == user);
    var r := ListFor(rows, user);
    forall n ensures n in r <==> n in f {
      assert n in r <==> n in multiset(r);
      assert n in f <==> n in multiset(f);
    }
  }

  const PageSize: nat := 10

  /** The number of pages: an empty list still has its one (empty) page. */
  function PageCount(total: nat): (c: nat)
    ensures c >= 1
    ensures total <= c * PageSize
    ensures total > 0 ==> (c - 1) * PageSize < total
  {
    if total == 0 then 1 else (total + PageSize - 1) / PageSize
  }

  /** NotificationPagination (page number pagination, ten per page): a
      page number outside 1..PageCount is refused (404). */
  function Page(list: seq<Notification>, page: int): (r: Option<seq<Notification>>)
    ensures r.Some? <==> 1 <= page <= PageCount(|list|)
    ensures r.Some? ==> |r.value| <= PageSize
    ensures r.Some? && page < PageCount(|list|) ==> |r.value| == PageSize
  {
    if page < 1 || page > PageCount(|list|) then None
    else
      var start := (page - 1) * PageSize;
      var end := if page * PageSize < |list| then page * PageSize else |list|;
      Some(list[start..end])
  }

  /** Every listed row appears exactly where the pages say: row i is entry
      i % 10 of page i / 10 + 1. */
  lemma PagesCoverList(list: seq<Notification>, i: nat)
    requires i < |list|
    ensures Page(list, i / PageSize + 1).Some?
    ensures |Page(list, i / PageSize + 1).value| > i % PageSize
    ensures Page(list, i / PageSize + 1).value[i % PageSize] == list[i]
  {
    var p := i / PageSize + 1;
    assert (p - 1) * PageSize + i % PageSize == i;
    assert p <= PageCount(|list|);
  }

  /** NotificationDetailAPI's lookup: the row with the id among the
      requester's rows. */
  function DetailFor(rows: seq<Notification>, user: UserId, id: nat): (r: Option<nat>)
    ensures r.Some? ==> r.value < |rows| && rows[r.value].user == user && rows[r.value].id == id
    ensures r.None? <==> forall n :: n in rows ==> !(n.user == user && n.id == id)
  {
    var k := FindIndex(rows, (n: Notification) => n.user == user && n.id == id);
    if k.None? then
      assert forall n :: n in rows ==> !(n.user == user && n.id == id) by {
        forall n | n in rows ensures !(n.user == user && n.id == id) {
          var i :| 0 <= i < |rows| && rows[i] == n;
        }
      }
      None
    else k
  }

  /** Another user's notification is never found: it is a 404 for the
      requester, whatever its id. */
  lemma OthersRowsHidden(rows: seq<Notification>, user: UserId, id: nat)
    requires forall n :: n in rows && n.id == id ==> n.user != user
    ensures DetailFor(rows, user, id).None?
  {
  }

  // ---------------------------------------------------------------------
  // The serializer's validation of an update
  // ---------------------------------------------------------------------

  /** The body of a PUT or PATCH: `message`, `notification_type` and
      `is_read` are writable; `id`, `created_at` and `payload` are read-only
      and ignored. */
  datatype UpdateData = UpdateData(message: Option<string>, ntype: Option<string>, isRead: Option<bool>)

  /** NotificationSerializer's validation. A full update (PUT) needs both
      the message and the type; a message may not be blank and a type must
      be one of the choices. */
  function ValidateUpdate(partial: bool, data: UpdateData): (ok: bool)
    ensures ok ==> data.message.None? || !IsBlank(data.message.value)
    ensures ok ==> data.ntype.None? || data.ntype.value in TypeChoices
    ensures ok && !partial ==> data.message.Some? && data.ntype.Some?
    ensures !ok ==> || (!partial && (data.message.None? || data.ntype.None?))
                    || (data.message.Some? && IsBlank(data.message.value))
                    || (data.ntype.Some? && data.ntype.value !in TypeChoices)
  {
    && (partial || (data.message.Some? && data.ntype.Some?))
    && (data.message.None? || !IsBlank(data.message.value))
    && (data.ntype.None? || data.ntype.value in TypeChoices)
  }

  /** The row after `serializer.save(is_read=True)`: the given fields are
      written (the message stripped of surrounding white space, as the
      CharField hands it on; the type as given) and the row is read,
      whatever `is_read` the body carried. */
  function Updated(n: Notification, data: UpdateData): (r: Notification)
    ensures r.isRead
    ensures r.id == n.id && r.user == n.user && r.createdAt == n.createdAt && r.payload == n.payload
    ensures r.message == (if data.message.Some? then Strip(data.message.value) else n.message)
    ensures r.ntype == (if data.ntype.Some? then data.ntype.value else n.ntype)
  {
    var message := if data.message.Some? then Strip(data.message.value) else n.message;
    n.(message := message, ntype := data.ntype.GetOr(n.ntype), isRead := true)
  }

  datatype UpdateOutcome = DetailNotFound | UpdateInvalid | DetailUpdated(row: Notification)

  // ---------------------------------------------------------------------
  // notify_sellers
  // ---------------------------------------------------------------------

  function IsSeller(u: User): bool {
    u.role == Seller
  }

  /** The rows `notify_sellers` builds, one per seller in table order. */
  function SellerBatch(users: seq<User>, message: string, ntype: string, payload: Option<Payload>,
                       now: int, firstId: nat): (r: seq<Notification>)
    ensures |r| == Count(users, IsSeller)
  {
    var sellers := Filter(users, IsSeller);
    seq(|sellers|, i requires 0 <= i < |sellers| =>
      Notification(firstId + i, sellers[i].id, message, ntype, false, now, StoredPayload(payload)))
  }

  /** Every seller gets the notice and nobody else does. */
  lemma SellerBatchRecipients(users: seq<User>, message: string, ntype: string, payload: Option<Payload>,
                              now: int, firstId: nat)
    ensures var r := SellerBatch(users, message, ntype, payload, now, firstId);
            && (forall u :: u in users && u.role == Seller ==> exists n :: n in r && n.user == u.id)
            && (forall n :: n in r ==> exists u :: u in users && u.role == Seller && u.id == n.user)
  {
    var sellers := Filter(users, IsSeller);
    var r := SellerBatch(users, message, ntype, payload, now, firstId);
    forall u | u in users && u.role == Seller ensures exists n :: n in r && n.user == u.id {
      assert u in sellers;
      var i :| 0 <= i < |sellers| && sellers[i] == u;
      assert r[i].user == u.id;
      assert r[i] in r;
    }
    forall n | n in r ensures exists u :: u in users && u.role == Seller && u.id == n.user {
      var i :| 0 <= i < |r| && r[i] == n;
      assert n.user == sellers[i].id;
      assert sellers[i] in sellers;
    }
  }

  /** All the notices are unread and alike but for their user. */
  lemma SellerBatchContents(users: seq<User>, message: string, ntype: string, payload: Option<Payload>,
                            now: int, firstId: nat)
    ensures forall n :: n in SellerBatch(users, message, ntype, payload, now, firstId) ==>
              (&& n.message == message && n.ntype == ntype && !n.isRead
               && n.payload == StoredPayload(payload) && n.createdAt == now)
  {
    var r := SellerBatch(users, message, ntype, payload, now, firstId);
    forall n | n in r
      ensures n.message == message && n.ntype == ntype && !n.isRead
      ensures n.payload == StoredPayload(payload) && n.createdAt == now
    {
      var i :| 0 <= i < |r| && r[i] == n;
    }
  }

  // ---------------------------------------------------------------------
  // The tables
  // ---------------------------------------------------------------------

  function Ids(rows: seq<Notification>): set<nat> {
    set n | n in rows :: n.id
  }

  /** Rows rewritten in place with their ids kept: the same ids, still
      distinct, and still below the same bound. */
  lemma SameIds(before: seq<Notification>, after: seq<Notification>, bound: nat)
    requires |after| == |before|
    requires forall i :: 0 <= i < |before| ==> after[i].id == before[i].id
    ensures Ids(after) == Ids(before)
    ensures DistinctKeys(before, NotificationId) ==> DistinctKeys(after, NotificationId)
    ensures (forall n :: n in before ==> n.id < bound) ==> forall n :: n in after ==> n.id < bound
  {
    forall x | x in Ids(before) ensures x in Ids(after) {
      var m :| m in before && m.id == x;
      var k :| 0 <= k < |before| && before[k] == m;
      assert after[k] in after;
    }
    forall x | x in Ids(after) ensures x in Ids(before) {
      var m :| m in after && m.id == x;
      var k :| 0 <= k < |after| && after[k] == m;
      assert before[k] in before;
    }
    if forall n :: n in before ==> n.id < bound {
      forall m | m in after ensures m.id < bound {
        var k :| 0 <= k < |after| && after[k] == m;
        assert before[k] in before;
      }
    }
  }

  /** The orders that order notifications point at (PROTECT). */
  function ReferencedOrders(details: seq<OrderNotification>): (r: set<OrderId>)
    ensures forall d :: d in details ==> d.order in r
    ensures forall o :: o in r ==> exists d :: d in details && d.order == o
  {
    set d | d in details :: d.order
  }

  function NotificationId(n: Notification): nat {
    n.id
  }

  function DetailKey(d: OrderNotification): nat {
    d.notification
  }

  /** The Notification and OrderNotification tables. Ids are unique and
      below `nextId`; every detail row belongs to an existing notification
      and to at most that one (OneToOne). */
  class NotificationStore {
    var rows: seq<Notification>
    var details: seq<OrderNotification>
    var nextId: nat

    ghost predicate Valid()
      reads this
    {
      && DistinctKeys(rows, NotificationId)
      && (forall n :: n in rows ==> n.id < nextId)
      && (forall d :: d in details ==> d.notification in Ids(rows))
      && DistinctKeys(details, DetailKey)
    }

    constructor ()
      ensures Valid()
      ensures rows == [] && details == [] && nextId == 0
    {
      rows := [];
      details := [];
      nextId := 0;
    }

    /** `Notification.objects.create(...)`: one unread row stamped with the
        current time (`auto_now_add`). */
    method Create(user: UserId, message: string, ntype: string, payload: Option<Payload>, now: int)
      returns (n: Notification)
      requires Valid()
      modifies this
      ensures Valid()
      ensures n == Notification(old(nextId), user, message, ntype, false, now, payload)
      ensures rows == old(rows) + [n] && details == old(details) && nextId == old(nextId) + 1
    {
      n := Notification(nextId, user, message, ntype, false, now, payload);
      rows := rows + [n];
      nextId := nextId + 1;
      assert Ids(old(rows)) <= Ids(rows);
    }

    /** `notify_user`: one unread notice whose payload is never NULL. */
    method NotifyUser(user: UserId, message: string, ntype: string, payload: Option<Payload>, now: int)
      returns (n: Notification)
      requires Valid()
      modifies this
      ensures Valid()
      ensures n == Notification(old(nextId), user, message, ntype, false, now, StoredPayload(payload))
      ensures rows == old(rows) + [n] && details == old(details) && nextId == old(nextId) + 1
    {
      n := Create(user, message, ntype, StoredPayload(payload), now);
    }

    /** `notify_sellers`: the seller rows are built in a loop over the
        sellers, then inserted together (`bulk_create`). */
    method NotifySellers(users: seq<User>, message: string, ntype: string, payload: Option<Payload>, now: int)
      returns (created: seq<Notification>)
      requires Valid()
      modifies this
      ensures Valid()
      ensures created == SellerBatch(users, message, ntype, payload, now, old(nextId))
      ensures rows == old(rows) + created && details == old(details)
      ensures nextId == old(nextId) + |created|
    {
      var sellers := Filter(users, IsSeller);
      created := [];
      var i := 0;
      while i < |sellers|
        invariant 0 <= i <= |sellers|
        invariant created == SellerBatch(users, message, ntype, payload, now, nextId)[..i]
      {
        created := created + [Notification(nextId + i, sellers[i].id, message, ntype, false, now, StoredPayload(payload))];
        i := i + 1;
      }
      Append(created);
    }

    /** The insertion of a batch of fresh rows with consecutive ids. */
    method Append(batch: seq<Notification>)
      requires Valid()
      requires forall i :: 0 <= i < |batch| ==> batch[i].id == nextId + i
      modifies this
      ensures Valid()
      ensures rows == old(rows) + batch && details == old(details) && nextId == old(nextId) + |batch|
    {
      var before := rows;
      rows := rows + batch;
      nextId := nextId + |batch|;
      forall n | n in rows ensures n.id < nextId {
        var k :| 0 <= k < |rows| && rows[k] == n;
        if k >= |before| {
          assert n == batch[k - |before|];
        }
      }
      forall i, j | 0 <= i < j < |rows| ensures NotificationId(rows[i]) != NotificationId(rows[j]) {
        if j >= |before| {
          assert rows[j] == batch[j - |before|];
          if i >= |before| {
            assert rows[i] == batch[i - |before|];
          } else {
            assert rows[i] in before;
          }
        }
      }
      assert Ids(before) <= Ids(rows);
    }

    /** `mark_all_as_read(user)`: the user's unread rows become read in one
        update, and their number is reported (`marked_read`). */
    method MarkAllAsRead(user: UserId) returns (count: nat)
      requires Valid()
      modifies this
      ensures Valid()
      ensures rows == MarkedRead(old(rows), user)
      ensures count == Count(old(rows), UnreadOf(user))
      ensures details == old(details) && nextId == old(nextId)
    {
      var before := rows;
      count := Count(before, UnreadOf(user));
      rows := MarkedRead(before, user);
      forall i | 0 <= i < |before| ensures rows[i].id == before[i].id {
      }
      SameIds(before, rows, nextId);
    }

    /** Replaces row k by `n`, which keeps its id. */
    method Replace(k: nat, n: Notification)
      requires Valid()
      requires k < |rows| && n.id == rows[k].id
      modifies this
      ensures Valid()
      ensures rows == old(rows)[k := n] && details == old(details) && nextId == old(nextId)
    {
      var before := rows;
      rows := rows[k := n];
      SameIds(before, rows, nextId);
    }

    /** `Notification.mark_as_read`: the row with the id becomes read;
        nothing else changes. */
    method MarkAsRead(id: nat) returns (found: bool)
      requires Valid()
      modifies this
      ensures Valid()
      ensures found <==> id in Ids(old(rows))
      ensures found ==> exists k :: 0 <= k < |old(rows)| && old(rows)[k].id == id
                                    && rows == old(rows)[k := old(rows)[k].(isRead := true)]
      ensures !found ==> rows == old(rows)
      ensures details == old(details) && nextId == old(nextId)
    {
      var k := FindIndex(rows, (n: Notification) => n.id == id);
      if k.None? {
        assert id !in Ids(rows) by {
          forall n | n in rows ensures n.id != id {
            var j :| 0 <= j < |rows| && rows[j] == n;
          }
        }
        return false;
      }
      assert rows[k.value] in rows;
      Replace(k.value, rows[k.value].(isRead := true));
      found := true;
    }

    /** NotificationDetailAPI's update: a row that is not the requester's
        is a 404; an invalid body is a 400 that changes nothing; otherwise
        the given fields are written and the row is marked read. */
    method PerformUpdate(user: UserId, id: nat, partial: bool, data: UpdateData)
      returns (outcome: UpdateOutcome)
      requires Valid()
      modifies this
      ensures Valid()
      ensures DetailFor(old(rows), user, id).None? ==> outcome == DetailNotFound
      ensures DetailFor(old(rows), user, id).Some? && !ValidateUpdate(partial, data) ==> outcome == UpdateInvalid
      ensures DetailFor(old(rows), user, id).Some? && ValidateUpdate(partial, data) ==>
                var k := DetailFor(old(rows), user, id).value;
                outcome == DetailUpdated(Updated(old(rows)[k], data)) && rows == old(rows)[k := outcome.row]
      ensures !outcome.DetailUpdated? ==> rows == old(rows)
      ensures details == old(details) && nextId == old(nextId)
    {
      var k := DetailFor(rows, user, id);
      if k.None? {
        return DetailNotFound;
      }
      if !ValidateUpdate(partial, data) {
        return UpdateInvalid;
      }
      var n := Updated(rows[k.value], data);
      Replace(k.value, n);
      outcome := DetailUpdated(n);
    }

    /** `create_order_notification`: a notification row (payload NULL)
        together with its order detail row. */
    method CreateOrderNotification(recipient: UserId, order: OrderId, message: string, ntype: string,
                                   snapshot: Payload, original: OriginalData, now: int)
      returns (n: Notification)
      requires Valid()
      modifies this
      ensures Valid()
      ensures n == Notification(old(nextId), recipient, message, ntype, false, now, None)
      ensures rows == old(rows) + [n] && nextId == old(nextId) + 1
      ensures details == old(details) + [OrderNotification(n.id, order, snapshot, original)]
    {
      n := Create(recipient, message, ntype, None, now);
      var d := OrderNotification(n.id, order, snapshot, original);
      assert forall e :: e in details ==> e.notification < n.id;
      details := details + [d];
      assert n in rows;
    }

    /** Deleting a notification cascades to its order detail. */
    method DeleteNotification(id: nat)
      requires Valid()
      modifies this
      ensures Valid()
      ensures rows == Filter(old(rows), (n: Notification) => n.id != id)
      ensures details == Filter(old(details), (d: OrderNotification) => d.notification != id)
      ensures id !in Ids(rows) && nextId == old(nextId)
    {
      FilterKeepsDistinctKeys(rows, (n: Notification) => n.id != id, NotificationId);
      FilterKeepsDistinctKeys(details, (d: OrderNotification) => d.notification != id, DetailKey);
      var before := rows;
      rows := Filter(rows, (n: Notification) => n.id != id);
      details := Filter(details, (d: OrderNotification) => d.notification != id);
      forall d | d in details ensures d.notification in Ids(rows) {
        var n :| n in before && n.id == d.notification;
      }
    }

    /** Deleting a user cascades to all of its notifications and their
        order details. */
    method DeleteUserRows(user: UserId)
      requires Valid()
      modifies this
      ensures Valid()
      ensures rows == Filter(old(rows), (n: Notification) => n.user != user)
      ensures forall n :: n in rows ==> n.user != user
      ensures forall d :: d in details <==> d in old(details) && d.notification in Ids(rows)
      ensures nextId == old(nextId)
    {
      FilterKeepsDistinctKeys(rows, (n: Notification) => n.user != user, NotificationId);
      rows := Filter(rows, (n: Notification) => n.user != user);
      var kept := Ids(rows);
      FilterKeepsDistinctKeys(details, (d: OrderNotification) => d.notification in kept, DetailKey);
      details := Filter(details, (d: OrderNotification) => d.notification in kept);
    }
  }
}
