/** The webhook receiver of src/server/webhook.js: signature check, the two
    record builders, and the `POST /api/webhooks/lemonsqueezy` handler that
    dispatches on `meta.event_name`, writes to the entitlement store and
    broadcasts `payment_event` to every connected client. `Handle` states
    the handler's effect on the tables, its response and its broadcasts;
    `WebhookServer.HandlePost` performs the same steps on a `Store`. */
module Webhook {
  import opened Common
  import opened WebhookTypes
  import opened StoreTables
  import EntitlementStore

  /** `verifyWebhookSignature(payload, signature)`. `hexHmac(payload, key)`
      stands for `CryptoJS.enc.Hex.stringify(CryptoJS.HmacSHA256(payload, key))`;
      a missing `x-signature` header never matches. */
  function VerifyWebhookSignature(hexHmac: (string, string) -> string, secret: string,
                                  payload: string, signature: Option<string>): (ok: bool)
    ensures ok <==> signature == Some(hexHmac(payload, secret))
  {
    signature.Some? && hexHmac(payload, secret) == signature.value
  }

  /** A signature that matches one payload does not match another payload whose HMAC differs. */
  lemma AlteredPayloadRejected(hexHmac: (string, string) -> string, secret: string,
                               payload: string, altered: string, signature: Option<string>)
    requires VerifyWebhookSignature(hexHmac, secret, payload, signature)
    requires hexHmac(altered, secret) != hexHmac(payload, secret)
    ensures !VerifyWebhookSignature(hexHmac, secret, altered, signature)
  {
  }

  const UnknownProduct := "Unknown Product"
  const DefaultVariant := "Default Variant"

  /** `processOrderData(data)`: the order record to save. The listed
      attributes are copied; a product or variant name that is missing
      (no order item, or no name in it) or empty takes its default. */
  function ProcessOrderData(data: EventData): (r: OrderData)
    ensures var a := data.attributes;
      && r.orderId == data.id && r.orderNumber == a.orderNumber
      && r.customerEmail == a.userEmail && r.customerName == a.userName
      && r.total == a.total && r.currency == a.currency
      && r.status == a.status && r.testMode == a.testMode
      && r.createdAt == a.createdAt && r.subscriptionId == a.subscriptionId
      && !r.processed
    ensures var item := data.attributes.firstOrderItem;
      && (item.Some? && item.value.productName.Some? && item.value.productName.value != "" ==>
            r.productName == item.value.productName.value)
      && (item.None? || item.value.productName.None? || item.value.productName.value == "" ==>
            r.productName == UnknownProduct)
      && (item.Some? && item.value.variantName.Some? && item.value.variantName.value != "" ==>
            r.variantName == item.value.variantName.value)
      && (item.None? || item.value.variantName.None? || item.value.variantName.value == "" ==>
            r.variantName == DefaultVariant)
  {
    var a := data.attributes;
    OrderData(
      orderId := data.id,
      orderNumber := a.orderNumber,
      customerEmail := a.userEmail,
      customerName := a.userName,
      total := a.total,
      currency := a.currency,
      status := a.status,
      testMode := a.testMode,
      createdAt := a.createdAt,
      productName := OrElse(ItemProductName(a), UnknownProduct),
      variantName := OrElse(ItemVariantName(a), DefaultVariant),
      subscriptionId := a.subscriptionId,
      processed := false)
  }

  /** `processSubscriptionData(data)` at time `now`: the status is the
      payload's, whatever the event; the local expiry is a month after `now`. */
  function ProcessSubscriptionData(data: EventData, now: Time): (r: Subscription)
    ensures r.id == data.id && r.status == data.attributes.status
    ensures r.customerId == data.attributes.customerId
    ensures var a := data.attributes;
      && r.renewsAt == a.renewsAt && r.endsAt == a.endsAt && r.createdAt == a.createdAt
      && r.productId == a.productId && r.variantId == a.variantId
    ensures r.updatedAt == now && r.expiresAt == now + MonthMillis
  {
    var a := data.attributes;
    Subscription(
      id := data.id,
      status := a.status,
      renewsAt := a.renewsAt,
      endsAt := a.endsAt,
      expiresAt := OneMonthAfter(now),
      createdAt := a.createdAt,
      updatedAt := now,
      customerId := a.customerId,
      productId := a.productId,
      variantId := a.variantId)
  }

  /** The `payment_event` payload: `{ type, order }` or `{ type, subscription }`. */
  datatype PaymentEvent =
    | OrderEvent(eventType: string, order: OrderRow)
    | SubscriptionEvent(eventType: string, subscription: Subscription)

  datatype Body = Received | Failure(message: string)

  datatype Response = Response(status: int, body: Body)

  const Accepted := Response(200, Received)
  const Unauthorized := Response(401, Failure("Invalid signature"))
  const ServerError := Response(500, Failure("Webhook processing failed"))

  /** What one request does: the tables afterwards, the response, and what is broadcast. */
  datatype Outcome = Outcome(tables: Tables, response: Response, emitted: seq<PaymentEvent>)

  /** The handler. `verified` is the signature check, `event` is
      `JSON.parse(payload)` (`None` when it throws), `storeFails` an error
      from the store write this request makes. */
  function Handle(t: Tables, verified: bool, event: Option<WebhookEvent>, now: Time, storeFails: bool): (o: Outcome)
    ensures o.response in {Accepted, Unauthorized, ServerError}
    ensures !verified ==> o == Outcome(t, Unauthorized, [])
    ensures verified && event.None? ==> o == Outcome(t, ServerError, [])
    ensures o.response == ServerError ==> o.tables == t && o.emitted == []
    ensures |o.emitted| <= 1
    ensures o.tables != t || |o.emitted| == 1 ==>
      verified && event.Some? && (event.value.eventName == OrderCreated || IsSubscriptionEvent(event.value.eventName))
  {
    if !verified then Outcome(t, Unauthorized, [])
    else if event.None? then Outcome(t, ServerError, [])
    else
      var e := event.value;
      if e.eventName == OrderCreated then
        var d := ProcessOrderData(e.data);
        if d.status != Paid then Outcome(t, Accepted, [])
        else
          var s := SaveOrderOn(t, d, now, storeFails);
          if s.result.Err? then Outcome(s.tables, ServerError, [])
          else Outcome(s.tables, Accepted, [OrderEvent(OrderCreated, s.result.value)])
      else if IsSubscriptionEvent(e.eventName) then
        var s := UpsertOn(t, ProcessSubscriptionData(e.data, now), now, storeFails);
        if s.result.Err? then Outcome(s.tables, ServerError, [])
        else Outcome(s.tables, Accepted, [SubscriptionEvent(e.eventName, s.result.value)])
      else Outcome(t, Accepted, [])
  }

  /** A failed signature check answers 401, touches no table and broadcasts nothing. */
  lemma BadSignatureRejected(t: Tables, event: Option<WebhookEvent>, now: Time, storeFails: bool)
    ensures Handle(t, false, event, now, storeFails) == Outcome(t, Response(401, Failure("Invalid signature")), [])
  {
  }

  /** Every thrown error answers 500 with nothing written and nothing broadcast;
      otherwise the answer is 200 or 401 and at most one event goes out. */
  lemma HandleResponses(t: Tables, verified: bool, event: Option<WebhookEvent>, now: Time, storeFails: bool)
    requires Valid(t)
    ensures var o := Handle(t, verified, event, now, storeFails);
      && o.response.status in {200, 401, 500}
      && (o.response.status == 500 ==> o.tables == t && o.emitted == [])
      && (o.response.status == 401 <==> !verified)
      && |o.emitted| <= 1
      && (o.response.status == 200 ==> verified && event.Some?)
  {
    if verified && event.Some? {
      var e := event.value;
      if e.eventName == OrderCreated {
        var d := ProcessOrderData(e.data);
        if d.status == Paid {
          var m := FirstMatch(t.orders, (r: OrderRow) => HasOrderId(r, d.orderId));
          if m.Some? {
            SaveOrderExisting(t, d, now, storeFails, m.value);
          }
        }
      } else if IsSubscriptionEvent(e.eventName) {
        var d := ProcessSubscriptionData(e.data, now);
        if d.status == Active {
          var m := FirstMatch(t.subscriptions, (s: Subscription) => ConflictsWith(s, d));
          if m.Some? {
            FirstActiveWins(t, d, now, storeFails, m.value);
          }
        }
      }
    }
  }

  /** A paid `order_created` stores exactly one row for its `order_id`, leaves subscriptions
      alone and broadcasts that row. */
  lemma PaidOrderStoredAndBroadcast(t: Tables, e: WebhookEvent, now: Time)
    requires Valid(t)
    requires e.eventName == OrderCreated && e.data.attributes.status == Paid
    ensures var o := Handle(t, true, Some(e), now, false);
      && o.response == Accepted
      && o.tables.subscriptions == t.subscriptions
      && (exists i :: 0 <= i < |o.tables.orders| && o.tables.orders[i].order.orderId == e.data.id
                      && o.emitted == [OrderEvent(OrderCreated, o.tables.orders[i])])
      && (forall i, j ::
            (0 <= i < |o.tables.orders| && 0 <= j < |o.tables.orders| &&
             o.tables.orders[i].order.orderId == e.data.id && o.tables.orders[j].order.orderId == e.data.id)
            ==> i == j)
  {
    var d := ProcessOrderData(e.data);
    SaveOrderPreservesValid(t, d, now, false);
    var m := FirstMatch(t.orders, (r: OrderRow) => HasOrderId(r, d.orderId));
    if m.Some? {
      SaveOrderExisting(t, d, now, false, m.value);
    } else {
      SaveOrderNew(t, d, now);
      var o := Handle(t, true, Some(e), now, false);
      assert o.tables.orders[|t.orders|].order.orderId == e.data.id;
    }
  }

  /** An `order_created` whose status is not `paid` is acknowledged and dropped. */
  lemma UnpaidOrderDropped(t: Tables, e: WebhookEvent, now: Time, storeFails: bool)
    requires e.eventName == OrderCreated && e.data.attributes.status != Paid
    ensures Handle(t, true, Some(e), now, storeFails) == Outcome(t, Accepted, [])
  {
  }

  /** Redelivering the same `order_created` changes no table and broadcasts the same event again. */
  lemma OrderRedeliveryIdempotent(t: Tables, e: WebhookEvent, now: Time, now2: Time, storeFails2: bool)
    requires Valid(t)
    requires e.eventName == OrderCreated
    ensures var o := Handle(t, true, Some(e), now, false);
      Handle(o.tables, true, Some(e), now2, storeFails2) == o
  {
    var d := ProcessOrderData(e.data);
    if d.status == Paid {
      SaveOrderIdempotent(t, d, now, now2, storeFails2);
    }
  }

  /** The four `subscription_*` events take one path: only the broadcast `type` tells them apart. */
  lemma SubscriptionEventsShareOnePath(t: Tables, e: WebhookEvent, other: string, now: Time, storeFails: bool)
    requires IsSubscriptionEvent(e.eventName) && IsSubscriptionEvent(other)
    ensures var o1 := Handle(t, true, Some(e), now, storeFails);
      var o2 := Handle(t, true, Some(e.(eventName := other)), now, storeFails);
      && o1.tables == o2.tables && o1.response == o2.response && |o1.emitted| == |o2.emitted|
      && (forall i :: 0 <= i < |o1.emitted| ==>
            o1.emitted[i].subscription == o2.emitted[i].subscription && o2.emitted[i].eventType == other)
  {
    assert e.eventName != OrderCreated && other != OrderCreated;
  }

  /** A subscription event whose payload status is not `active` (such as `subscription_expired`)
      upserts the record as sent, keeping the payload status: the row is not deleted. */
  lemma InactiveSubscriptionUpserted(t: Tables, e: WebhookEvent, now: Time)
    requires Valid(t)
    requires IsSubscriptionEvent(e.eventName) && e.data.attributes.status != Active
    ensures var o := Handle(t, true, Some(e), now, false);
      var row := ProcessSubscriptionData(e.data, now);
      && o.response == Accepted
      && o.emitted == [SubscriptionEvent(e.eventName, row)]
      && o.tables.orders == t.orders
      && (exists j :: 0 <= j < |o.tables.subscriptions| && o.tables.subscriptions[j] == row
                      && o.tables.subscriptions[j].status == e.data.attributes.status)
      && (forall j :: 0 <= j < |t.subscriptions| && t.subscriptions[j].id != e.data.id ==>
            t.subscriptions[j] in o.tables.subscriptions)
  {
    var row := ProcessSubscriptionData(e.data, now);
    UpsertProceeds(t, row, now);
    UpsertByIdEffect(t.subscriptions, row);
    var r := UpsertById(t.subscriptions, row);
    if exists i :: 0 <= i < |t.subscriptions| && t.subscriptions[i].id == row.id {
      var i :| 0 <= i < |t.subscriptions| && t.subscriptions[i].id == row.id;
      assert r[i] == row;
      forall j | 0 <= j < |t.subscriptions| && t.subscriptions[j].id != e.data.id
        ensures t.subscriptions[j] in r
      {
        assert r[j] == t.subscriptions[j];
      }
    } else {
      assert r[|t.subscriptions|] == row;
      forall j | 0 <= j < |t.subscriptions| ensures t.subscriptions[j] in r {
        assert r[j] == t.subscriptions[j];
      }
    }
  }

  /** An activation for a customer who already holds another active subscription is refused:
      the tables stay as they were and the existing subscription is what gets broadcast. */
  lemma SecondActivationRefused(t: Tables, e: WebhookEvent, now: Time, storeFails: bool, i: nat)
    requires Valid(t)
    requires IsSubscriptionEvent(e.eventName) && e.data.attributes.status == Active
    requires i < |t.subscriptions| && IsActive(t.subscriptions[i])
    requires e.data.attributes.customerId.Some? && t.subscriptions[i].customerId == e.data.attributes.customerId
    requires t.subscriptions[i].id != e.data.id
    ensures Handle(t, true, Some(e), now, storeFails) == Outcome(t, Accepted, [SubscriptionEvent(e.eventName, t.subscriptions[i])])
  {
    FirstActiveWins(t, ProcessSubscriptionData(e.data, now), now, storeFails, i);
  }

  /** An unrecognised `event_name` changes nothing and is still acknowledged with 200. */
  lemma UnknownEventAcknowledged(t: Tables, e: WebhookEvent, now: Time, storeFails: bool)
    requires e.eventName != OrderCreated && !IsSubscriptionEvent(e.eventName)
    ensures Handle(t, true, Some(e), now, storeFails) == Outcome(t, Response(200, Received), [])
  {
  }

  /** No request breaks the store's invariant. */
  lemma HandlePreservesValid(t: Tables, verified: bool, event: Option<WebhookEvent>, now: Time, storeFails: bool)
    requires Valid(t)
    ensures Valid(Handle(t, verified, event, now, storeFails).tables)
  {
    if verified && event.Some? {
      var e := event.value;
      if e.eventName == OrderCreated {
        SaveOrderPreservesValid(t, ProcessOrderData(e.data), now, storeFails);
      } else if IsSubscriptionEvent(e.eventName) {
        UpsertPreservesValid(t, ProcessSubscriptionData(e.data, now), now, storeFails);
      }
    }
  }

  /** The server: the store it writes to, the shared secret, and what
      `io.emit('payment_event', …)` has sent so far on the shared channel. */
  class WebhookServer {
    const store: EntitlementStore.Store
    const webhookSecret: string
    var broadcasts: seq<PaymentEvent>

    ghost predicate Valid()
      reads this, store
    {
      store.Valid()
    }

    constructor (store: EntitlementStore.Store, webhookSecret: string)
      requires store.Valid()
      ensures Valid()
      ensures this.store == store && this.webhookSecret == webhookSecret && broadcasts == []
    {
      this.store := store;
      this.webhookSecret := webhookSecret;
      broadcasts := [];
    }

    /** The `POST /api/webhooks/lemonsqueezy` handler. `parse` stands for
        `JSON.parse` (`None` when it throws); `storeFails` for an error from
        the store write the request makes. */
    method HandlePost(hexHmac: (string, string) -> string, parse: string -> Option<WebhookEvent>,
                      payload: string, signature: Option<string>, now: Time, storeFails: bool)
      returns (response: Response)
      requires Valid()
      modifies this, store
      ensures Valid()
      ensures var o := Handle(old(store.State()), VerifyWebhookSignature(hexHmac, webhookSecret, payload, signature),
                              parse(payload), now, storeFails);
        && store.State() == o.tables
        && response == o.response
        && broadcasts == old(broadcasts) + o.emitted
    {
      if !VerifyWebhookSignature(hexHmac, webhookSecret, payload, signature) {
        return Unauthorized;
      }
      var event := parse(payload);
      if event.None? {
        return ServerError;
      }
      var e := event.value;
      if e.eventName == OrderCreated {
        var orderData := ProcessOrderData(e.data);
        if orderData.status == Paid {
          var saved := store.SaveOrder(orderData, now, storeFails);
          if saved.Err? {
            return ServerError;
          }
          broadcasts := broadcasts + [OrderEvent(OrderCreated, saved.value)];
        }
      } else if IsSubscriptionEvent(e.eventName) {
        var subscriptionData := ProcessSubscriptionData(e.data, now);
        var updated := store.UpdateSubscription(subscriptionData, now, storeFails);
        if updated.Err? {
          return ServerError;
        }
        broadcasts := broadcasts + [SubscriptionEvent(e.eventName, updated.value)];
      }
      response := Accepted;
    }
  }
}
