/** Subscription bookkeeping of the two REST views files: the YooKassa webhook that
    creates or refreshes the subscription a payment belongs to, the manual
    `create_subscription` action, and `cancel_auto_renewal`.  Both views files carry
    the same logic; only the way the Telegram notice is sent differs, and sending is
    outside the model (a notice is recorded, and a failed send never changes the
    reply). */
module Payments {
  import opened Wrappers
  import opened Models
  import opened Store

  /** The fields of a YooKassa notification the webhook reads.  `None` is a field
      that is absent (or JSON `null`); the amount is in kopecks. */
  datatype PaymentEvent = PaymentEvent(
    paymentId: Option<string>,
    status: Option<string>,
    amount: Option<int>,
    currency: Option<string>,
    telegramId: Option<int>)

  /** A Telegram message to the payer, sent to the stored `chat_id` as it is. */
  datatype Notice =
    | PaymentSucceeded(chatId: int)
    | PaymentFailed(chatId: int, paymentId: Option<string>)

  /** What one delivery of the webhook leaves behind: the HTTP status, the
      subscription table and the notices sent. */
  datatype Delivery = Delivery(code: int, subscriptions: seq<Subscription>, notices: seq<Notice>)

  /** The row belongs to the lookup key `(user, payment_id)` of `get_or_create`. */
  predicate Matches(s: Subscription, owner: int, paymentId: Option<string>)
  {
    s.owner == owner && s.paymentId == paymentId
  }

  /** Positions of the rows `Subscription.objects.filter(user=..., payment_id=...)` finds,
      in table order. */
  function Matching(subs: seq<Subscription>, owner: int, paymentId: Option<string>): (r: seq<nat>)
    ensures forall k :: 0 <= k < |r| ==> r[k] < |subs| && Matches(subs[r[k]], owner, paymentId)
    ensures forall i :: 0 <= i < |subs| && Matches(subs[i], owner, paymentId) ==> i in r
    ensures forall j, k :: 0 <= j < k < |r| ==> r[j] < r[k]
    decreases |subs|
  {
    if subs == [] then []
    else
      var last := |subs| - 1;
      var prev := Matching(subs[..last], owner, paymentId);
      assert forall i :: 0 <= i < last ==> subs[..last][i] == subs[i];
      if Matches(subs[last], owner, paymentId) then prev + [last] else prev
  }

  /** Appending a row adds it to the rows of its own key and to no other. */
  lemma MatchingSnoc(subs: seq<Subscription>, s: Subscription, owner: int, paymentId: Option<string>)
    ensures Matching(subs + [s], owner, paymentId)
            == Matching(subs, owner, paymentId) + (if Matches(s, owner, paymentId) then [|subs|] else [])
  {
    assert (subs + [s])[..|subs|] == subs;
  }

  /** A row rewritten without changing its key keeps the set of rows of every key. */
  lemma MatchingUpdate(subs: seq<Subscription>, pk: nat, s: Subscription, owner: int, paymentId: Option<string>)
    requires pk < |subs|
    requires s.owner == subs[pk].owner && s.paymentId == subs[pk].paymentId
    ensures Matching(subs[pk := s], owner, paymentId) == Matching(subs, owner, paymentId)
    decreases |subs|
  {
    var last := |subs| - 1;
    if pk < last {
      assert subs[pk := s][..last] == subs[..last][pk := s];
      MatchingUpdate(subs[..last], pk, s, owner, paymentId);
    } else {
      assert subs[pk := s][..last] == subs[..last];
    }
  }

  /** `amount or 290.00`. */
  function PaidAmount(amount: Option<int>): int
  {
    if amount.Some? && amount.value != 0 then amount.value else DEFAULT_AMOUNT
  }

  /** `currency or 'RUB'`. */
  function PaidCurrency(currency: Option<string>): string
  {
    if currency.Some? && currency.value != "" then currency.value else DEFAULT_CURRENCY
  }

  /** The row the webhook creates for a payment it has not seen: active for 30 days
      from now, auto-renewing, paid through YooKassa, with the event's amount and
      currency or the defaults. */
  function PaidSubscription(owner: int, e: PaymentEvent, now: Timestamp): (s: Subscription)
    ensures Matches(s, owner, e.paymentId)
    ensures s.status == Active && s.start == now && s.end == Some(now + SUBSCRIPTION_PERIOD)
    ensures s.autoRenewal && s.paymentMethod == DEFAULT_PAYMENT_METHOD && s.createdAt == now
    ensures s.amount == PaidAmount(e.amount) && s.currency == PaidCurrency(e.currency)
  {
    NewSubscription(owner, now, Some(now + SUBSCRIPTION_PERIOD), e.paymentId, now)
      .(amount := PaidAmount(e.amount), currency := PaidCurrency(e.currency))
  }

  /** The row the webhook refreshes for a payment it has seen: active again for 30 days
      from now, amount and currency rewritten; renewal flag, method, key and creation
      time stay. */
  function Refreshed(s: Subscription, e: PaymentEvent, now: Timestamp): (r: Subscription)
    ensures r.status == Active && r.start == now && r.end == Some(now + SUBSCRIPTION_PERIOD)
    ensures r.amount == PaidAmount(e.amount) && r.currency == PaidCurrency(e.currency)
    ensures r.owner == s.owner && r.paymentId == s.paymentId && r.autoRenewal == s.autoRenewal
    ensures r.paymentMethod == s.paymentMethod && r.createdAt == s.createdAt
  {
    s.(status := Active, start := now, end := Some(now + SUBSCRIPTION_PERIOD),
       amount := PaidAmount(e.amount), currency := PaidCurrency(e.currency))
  }

  /** `YooKassaWebhookView.post` on a parsed event: 400 without a telegram id; 500 for an
      unknown user (the 404 raised inside the `try` is caught by the generic handler)
      and when the lookup key matches several rows; otherwise 200, after creating or
      refreshing the row on a succeeded payment, or after telling the payer it failed. */
  function Webhook(users: map<int, User>, subs: seq<Subscription>, e: PaymentEvent, now: Timestamp): (d: Delivery)
    ensures d.code == 200 || d.code == 400 || d.code == 500
    ensures d.code != 200 ==> d.subscriptions == subs && d.notices == []
    ensures d.code == 200 ==> |d.notices| == 1 && |subs| <= |d.subscriptions| <= |subs| + 1
  {
    if e.telegramId.None? || e.telegramId.value == 0 then Delivery(400, subs, [])
    else if e.telegramId.value !in users then Delivery(500, subs, [])
    else
      var owner := e.telegramId.value;
      var chat := users[owner].chatId;
      if e.status != Some("succeeded") then Delivery(200, subs, [PaymentFailed(chat, e.paymentId)])
      else
        var rows := Matching(subs, owner, e.paymentId);
        if |rows| == 0 then Delivery(200, subs + [PaidSubscription(owner, e, now)], [PaymentSucceeded(chat)])
        else if |rows| == 1 then Delivery(200, subs[rows[0] := Refreshed(subs[rows[0]], e, now)], [PaymentSucceeded(chat)])
        else Delivery(500, subs, [])
  }

  /** The three replies: 400 exactly without a telegram id, 500 exactly for an unknown
      user or an ambiguous key; only a 200 writes or notifies. */
  lemma WebhookCodes(users: map<int, User>, subs: seq<Subscription>, e: PaymentEvent, now: Timestamp)
    ensures var d := Webhook(users, subs, e, now);
            && (d.code == 400 <==> e.telegramId.None? || e.telegramId.value == 0)
            && (d.code == 500 <==>
                  (&& e.telegramId.Some? && e.telegramId.value != 0
                   && (|| e.telegramId.value !in users
                       || (e.status == Some("succeeded") && |Matching(subs, e.telegramId.value, e.paymentId)| >= 2))))
            && (d.code == 200 || d.code == 400 || d.code == 500)
            && (d.code != 200 ==> d.subscriptions == subs && d.notices == [])
  {
  }

  /** A payment that did not succeed writes nothing and tells the payer, in the stored
      chat, which payment to retry. */
  lemma WebhookNotSucceeded(users: map<int, User>, subs: seq<Subscription>, e: PaymentEvent, now: Timestamp)
    requires e.telegramId.Some? && e.telegramId.value in users && e.telegramId.value != 0
    requires e.status != Some("succeeded")
    ensures Webhook(users, subs, e, now)
            == Delivery(200, subs, [PaymentFailed(users[e.telegramId.value].chatId, e.paymentId)])
  {
  }

  /** After a succeeded payment whose key had at most one row, the key has exactly one
      row, it is the only row changed or added, and the payer is entitled for the next
      30 days. */
  lemma WebhookSucceeded(users: map<int, User>, subs: seq<Subscription>, e: PaymentEvent, now: Timestamp)
    requires e.telegramId.Some? && e.telegramId.value in users && e.telegramId.value != 0
    requires e.status == Some("succeeded")
    requires |Matching(subs, e.telegramId.value, e.paymentId)| <= 1
    ensures var d := Webhook(users, subs, e, now);
            var rows := Matching(d.subscriptions, e.telegramId.value, e.paymentId);
            && d.code == 200 && d.notices == [PaymentSucceeded(users[e.telegramId.value].chatId)]
            && |rows| == 1
            && |d.subscriptions| == |subs| + (if |Matching(subs, e.telegramId.value, e.paymentId)| == 0 then 1 else 0)
            && (forall i :: 0 <= i < |subs| && i != rows[0] ==> d.subscriptions[i] == subs[i])
            && (forall t :: now <= t < now + SUBSCRIPTION_PERIOD ==>
                  HasActiveSubscription(d.subscriptions, e.telegramId.value, t))
  {
    var owner := e.telegramId.value;
    var d := Webhook(users, subs, e, now);
    var before := Matching(subs, owner, e.paymentId);
    if |before| == 0 {
      MatchingSnoc(subs, PaidSubscription(owner, e, now), owner, e.paymentId);
      PaidWindow(d.subscriptions, |subs|, owner, now);
    } else {
      MatchingUpdate(subs, before[0], Refreshed(subs[before[0]], e, now), owner, e.paymentId);
      PaidWindow(d.subscriptions, before[0], owner, now);
    }
  }

  /** A row of the owner's that is active until one period after `now` entitles them
      throughout that period. */
  lemma PaidWindow(subs: seq<Subscription>, row: nat, owner: int, now: Timestamp)
    requires row < |subs| && subs[row].owner == owner && subs[row].status == Active
    requires subs[row].end == Some(now + SUBSCRIPTION_PERIOD)
    ensures forall t :: now <= t < now + SUBSCRIPTION_PERIOD ==> HasActiveSubscription(subs, owner, t)
  {
    forall t | now <= t < now + SUBSCRIPTION_PERIOD
      ensures HasActiveSubscription(subs, owner, t)
    {
      assert Entitles(subs[row], owner, t);
    }
  }

  /** A redelivered succeeded event neither adds a row nor fails: the second delivery
      refreshes the row the first one left, and the table keeps its size. */
  lemma WebhookRedelivery(users: map<int, User>, subs: seq<Subscription>, e: PaymentEvent, now1: Timestamp, now2: Timestamp)
    requires e.telegramId.Some? && e.telegramId.value in users && e.telegramId.value != 0
    requires e.status == Some("succeeded")
    requires |Matching(subs, e.telegramId.value, e.paymentId)| <= 1
    ensures var d1 := Webhook(users, subs, e, now1);
            var d2 := Webhook(users, d1.subscriptions, e, now2);
            var rows := Matching(d1.subscriptions, e.telegramId.value, e.paymentId);
            && |rows| == 1
            && d2.code == 200
            && |d2.subscriptions| == |d1.subscriptions|
            && d2.subscriptions == d1.subscriptions[rows[0] := Refreshed(d1.subscriptions[rows[0]], e, now2)]
  {
    WebhookSucceeded(users, subs, e, now1);
  }

  /** The row a succeeded first delivery leaves for its key is one that a second
      delivery at the same instant would refresh to itself. */
  lemma FirstDeliveryFixed(users: map<int, User>, subs: seq<Subscription>, e: PaymentEvent, now: Timestamp)
    requires e.telegramId.Some? && e.telegramId.value in users && e.telegramId.value != 0
    requires e.status == Some("succeeded")
    requires |Matching(subs, e.telegramId.value, e.paymentId)| <= 1
    ensures var d1 := Webhook(users, subs, e, now);
            var rows := Matching(d1.subscriptions, e.telegramId.value, e.paymentId);
            |rows| == 1 && Refreshed(d1.subscriptions[rows[0]], e, now) == d1.subscriptions[rows[0]]
  {
    var owner := e.telegramId.value;
    var before := Matching(subs, owner, e.paymentId);
    if |before| == 0 {
      MatchingSnoc(subs, PaidSubscription(owner, e, now), owner, e.paymentId);
    } else {
      MatchingUpdate(subs, before[0], Refreshed(subs[before[0]], e, now), owner, e.paymentId);
    }
  }

  /** Two deliveries of the same succeeded event at the same instant leave what one
      leaves. */
  lemma WebhookIdempotent(users: map<int, User>, subs: seq<Subscription>, e: PaymentEvent, now: Timestamp)
    requires e.telegramId.Some? && e.telegramId.value in users && e.telegramId.value != 0
    requires e.status == Some("succeeded")
    requires |Matching(subs, e.telegramId.value, e.paymentId)| <= 1
    ensures var d1 := Webhook(users, subs, e, now);
            Webhook(users, d1.subscriptions, e, now).subscriptions == d1.subscriptions
  {
    WebhookRedelivery(users, subs, e, now, now);
    FirstDeliveryFixed(users, subs, e, now);
    var d1 := Webhook(users, subs, e, now);
    var row := Matching(d1.subscriptions, e.telegramId.value, e.paymentId)[0];
    assert d1.subscriptions[row := Refreshed(d1.subscriptions[row], e, now)] == d1.subscriptions;
  }

  /** The webhook handler on the database. */
  method HandleWebhook(db: Database, e: PaymentEvent, now: Timestamp) returns (code: int, notices: seq<Notice>)
    requires db.Valid()
    modifies db`subscriptions
    ensures db.Valid()
    ensures var d := Webhook(db.users, old(db.subscriptions), e, now);
            code == d.code && db.subscriptions == d.subscriptions && notices == d.notices
  {
    if e.telegramId.None? || e.telegramId.value == 0 {
      return 400, [];
    }
    var owner := e.telegramId.value;
    if owner !in db.users {
      return 500, [];
    }
    var user := db.users[owner];
    if e.status != Some("succeeded") {
      return 200, [PaymentFailed(user.chatId, e.paymentId)];
    }
    var rows := Matching(db.subscriptions, owner, e.paymentId);
    if |rows| == 0 {
      var pk := db.InsertSubscription(PaidSubscription(owner, e, now));
    } else if |rows| == 1 {
      var row := db.subscriptions[rows[0]];
      row := row.(status := Active, start := now, end := Some(now + SUBSCRIPTION_PERIOD));
      row := row.(amount := PaidAmount(e.amount), currency := PaidCurrency(e.currency));
      db.SaveSubscription(rows[0], row);
    } else {
      return 500, [];
    }
    code, notices := 200, [PaymentSucceeded(user.chatId)];
  }

  /** What `create_subscription` replies and leaves. */
  datatype Creation = Creation(code: int, subscriptions: seq<Subscription>)

  /** `SubscriptionViewSet.create_subscription`: 400 without a payment id or a telegram
      id, 404 for an unknown user, otherwise a new active 30-day row (default price and
      method, renewing), 201.  Nothing is looked up by payment id. */
  function CreateSubscriptionEffect(users: map<int, User>, subs: seq<Subscription>, paymentId: Option<string>,
                                    telegramId: Option<int>, now: Timestamp): (c: Creation)
    ensures c.code == 201 || c.code == 400 || c.code == 404
    ensures c.code != 201 ==> c.subscriptions == subs
    ensures c.code == 201 ==> |c.subscriptions| == |subs| + 1 && c.subscriptions[..|subs|] == subs
  {
    if paymentId.None? || paymentId.value == "" || telegramId.None? || telegramId.value == 0 then Creation(400, subs)
    else if telegramId.value !in users then Creation(404, subs)
    else Creation(201, subs + [NewSubscription(telegramId.value, now, Some(now + SUBSCRIPTION_PERIOD), paymentId, now)])
  }

  /** 400 and 404 write nothing; a 201 adds one row to the payment's key, and that row
      entitles its owner for the next 30 days. */
  lemma CreateSubscriptionOutcomes(users: map<int, User>, subs: seq<Subscription>, paymentId: Option<string>,
                                   telegramId: Option<int>, now: Timestamp)
    ensures var c := CreateSubscriptionEffect(users, subs, paymentId, telegramId, now);
            && (c.code == 400 <==> paymentId.None? || paymentId.value == "" || telegramId.None? || telegramId.value == 0)
            && (c.code == 404 <==> c.code != 400 && telegramId.value !in users)
            && (c.code != 201 ==> c.subscriptions == subs)
            && (c.code == 201 ==>
                  && c.subscriptions[..|subs|] == subs && |c.subscriptions| == |subs| + 1
                  && |Matching(c.subscriptions, telegramId.value, paymentId)| == |Matching(subs, telegramId.value, paymentId)| + 1
                  && forall t :: now <= t < now + SUBSCRIPTION_PERIOD ==>
                       HasActiveSubscription(c.subscriptions, telegramId.value, t))
  {
    var c := CreateSubscriptionEffect(users, subs, paymentId, telegramId, now);
    if c.code == 201 {
      var owner := telegramId.value;
      var s := NewSubscription(owner, now, Some(now + SUBSCRIPTION_PERIOD), paymentId, now);
      assert c.subscriptions == subs + [s];
      assert c.subscriptions[..|subs|] == subs;
      MatchingSnoc(subs, s, owner, paymentId);
      forall t | now <= t < now + SUBSCRIPTION_PERIOD
        ensures HasActiveSubscription(c.subscriptions, owner, t)
      {
        assert Entitles(c.subscriptions[|subs|], owner, t);
      }
    }
  }

  /** Unlike the webhook, repeating `create_subscription` duplicates: after two calls
      the payment's key has two more rows, and a webhook for it then answers 500. */
  lemma CreateSubscriptionTwice(users: map<int, User>, subs: seq<Subscription>, paymentId: Option<string>,
                                telegramId: Option<int>, now1: Timestamp, now2: Timestamp, e: PaymentEvent, now3: Timestamp)
    requires CreateSubscriptionEffect(users, subs, paymentId, telegramId, now1).code == 201
    requires e.telegramId == telegramId && e.paymentId == paymentId && e.status == Some("succeeded")
    ensures var c1 := CreateSubscriptionEffect(users, subs, paymentId, telegramId, now1);
            var c2 := CreateSubscriptionEffect(users, c1.subscriptions, paymentId, telegramId, now2);
            && c2.code == 201
            && |Matching(c2.subscriptions, telegramId.value, paymentId)| == |Matching(subs, telegramId.value, paymentId)| + 2
            && Webhook(users, c2.subscriptions, e, now3) == Delivery(500, c2.subscriptions, [])
  {
    var c1 := CreateSubscriptionEffect(users, subs, paymentId, telegramId, now1);
    CreateSubscriptionOutcomes(users, subs, paymentId, telegramId, now1);
    CreateSubscriptionOutcomes(users, c1.subscriptions, paymentId, telegramId, now2);
  }

  /** `create_subscription` on the database; `pk` is the new row's key on a 201. */
  method CreateSubscription(db: Database, paymentId: Option<string>, telegramId: Option<int>, now: Timestamp)
    returns (code: int, pk: Option<nat>)
    requires db.Valid()
    modifies db`subscriptions
    ensures db.Valid()
    ensures var c := CreateSubscriptionEffect(db.users, old(db.subscriptions), paymentId, telegramId, now);
            code == c.code && db.subscriptions == c.subscriptions
    ensures pk.Some? <==> code == 201
    ensures pk.Some? ==> pk.value == |old(db.subscriptions)|
  {
    if paymentId.None? || paymentId.value == "" || telegramId.None? || telegramId.value == 0 {
      return 400, None;
    }
    if telegramId.value !in db.users {
      return 404, None;
    }
    var start := now;
    var s := NewSubscription(telegramId.value, start, Some(start + SUBSCRIPTION_PERIOD), paymentId, now);
    var key := db.InsertSubscription(s);
    code, pk := 201, Some(key);
  }

  /** The table after `cancel_auto_renewal` on row `pk`: that row stops renewing and
      nothing else changes. */
  function WithoutRenewal(subs: seq<Subscription>, pk: nat): (r: seq<Subscription>)
    requires pk < |subs|
    ensures |r| == |subs| && !r[pk].autoRenewal && r[pk].(autoRenewal := subs[pk].autoRenewal) == subs[pk]
    ensures forall i :: 0 <= i < |subs| && i != pk ==> r[i] == subs[i]
  {
    subs[pk := subs[pk].(autoRenewal := false)]
  }

  /** Cancelling twice is cancelling once, and cancelling does not end the current
      entitlement: it only stops the next renewal. */
  lemma CancelRenewalIdempotent(subs: seq<Subscription>, pk: nat, owner: int, now: Timestamp)
    requires pk < |subs|
    ensures WithoutRenewal(WithoutRenewal(subs, pk), pk) == WithoutRenewal(subs, pk)
    ensures HasActiveSubscription(WithoutRenewal(subs, pk), owner, now) == HasActiveSubscription(subs, owner, now)
  {
    var r := WithoutRenewal(subs, pk);
    if HasActiveSubscription(subs, owner, now) {
      var i :| 0 <= i < |subs| && Entitles(subs[i], owner, now);
      assert Entitles(r[i], owner, now);
    }
    if HasActiveSubscription(r, owner, now) {
      var i :| 0 <= i < |r| && Entitles(r[i], owner, now);
      assert Entitles(subs[i], owner, now);
    }
  }

  /** `SubscriptionViewSet.cancel_auto_renewal` on the row with key `pk`: 404 when there
      is none, otherwise the row stops renewing, 200. */
  method CancelAutoRenewal(db: Database, pk: nat) returns (code: int)
    requires db.Valid()
    modifies db`subscriptions
    ensures db.Valid()
    ensures code == 404 <==> pk >= |old(db.subscriptions)|
    ensures code == 404 ==> db.subscriptions == old(db.subscriptions)
    ensures code != 404 ==> code == 200 && db.subscriptions == WithoutRenewal(old(db.subscriptions), pk)
  {
    if pk >= |db.subscriptions| {
      return 404;
    }
    var s := db.subscriptions[pk];
    s := s.(autoRenewal := false);
    db.SaveSubscription(pk, s);
    code := 200;
  }
}
