/** The client side of entitlement in src/components/Settings/BillingSettings.tsx:
    the snapshot transition for each payment event pushed to the browser, the
    snapshot derived from the user's paid orders when the page loads, and the
    payment history the page keeps. */
module BillingSettings {
  import opened Common
  import opened WebhookTypes
  import opened UserStore
  import StoreTables
  import BillingHistory
  import SubscriptionGuard

  const DefaultPlan := "Premium Plan"
  const LoadError := "Failed to load subscription data"

  /** `attributes.first_order_item?.product_name || 'Premium Plan'` */
  function PlanOf(a: Attributes): (plan: string)
    ensures plan != ""
    ensures ItemProductName(a).Some? && ItemProductName(a).value != "" ==> plan == ItemProductName(a).value
    ensures ItemProductName(a).None? || ItemProductName(a).value == "" ==> plan == DefaultPlan
  {
    OrElse(ItemProductName(a), DefaultPlan)
  }

  /** The current user has an email and the event names someone else. A user
      without an email, or an event naming the user, is never filtered out. */
  predicate ForOtherUser(userEmail: Option<string>, e: WebhookEvent)
    ensures userEmail.None? || userEmail == Some("") || userEmail == Some(e.data.attributes.userEmail) ==>
      !ForOtherUser(userEmail, e)
  {
    userEmail.Some? && userEmail.value != "" && e.data.attributes.userEmail != userEmail.value
  }

  /** The `switch` cases that call `updateSubscription`. */
  predicate CallsSetter(e: WebhookEvent) {
    var a := e.data.attributes;
    || (e.eventName == OrderCreated && a.status == StoreTables.Paid)
    || (e.eventName == SubscriptionCreated && a.status == StoreTables.Active)
    || e.eventName == SubscriptionUpdated
    || e.eventName == SubscriptionCancelled
    || e.eventName == SubscriptionExpired
  }

  /** The argument those cases pass to `updateSubscription`. */
  function SetterArgument(e: WebhookEvent): (r: Option<Subscription>)
    requires CallsSetter(e)
    ensures r.None? <==> e.eventName == SubscriptionExpired
    ensures r.Some? ==> r.value.id == e.data.id && r.value.plan == PlanOf(e.data.attributes)
    ensures r.Some? ==> r.value.status != Expired && (r.value.status == Canceled <==> e.eventName == SubscriptionCancelled)
  {
    var a := e.data.attributes;
    if e.eventName == OrderCreated then Some(Subscription(e.data.id, PlanOf(a), Active, Some(a.createdAt)))
    else if e.eventName == SubscriptionCreated || e.eventName == SubscriptionUpdated then
      Some(Subscription(e.data.id, PlanOf(a), Active, a.renewsAt))
    else if e.eventName == SubscriptionCancelled then Some(Subscription(e.data.id, PlanOf(a), Canceled, a.endsAt))
    else None
  }

  /** The snapshot after `handlePaymentEvent(e)` for a user with email `userEmail`. */
  function NextSnapshot(userEmail: Option<string>, e: WebhookEvent, current: Option<Subscription>): (r: Option<Subscription>)
    ensures r != current ==> !ForOtherUser(userEmail, e) && CallsSetter(e)
    ensures r != current && r.Some? ==> r.value.id == e.data.id && r.value.plan == PlanOf(e.data.attributes)
    ensures r.None? && current.Some? ==> e.eventName == SubscriptionExpired
  {
    if ForOtherUser(userEmail, e) || !CallsSetter(e) then current else SetterArgument(e)
  }

  /** The transition, event kind by event kind. */
  lemma SnapshotTransitions(userEmail: Option<string>, e: WebhookEvent, current: Option<Subscription>)
    ensures var a := e.data.attributes;
      var next := NextSnapshot(userEmail, e, current);
      && (ForOtherUser(userEmail, e) ==> next == current)
      && (!ForOtherUser(userEmail, e) ==>
        && (e.eventName == OrderCreated ==>
              next == if a.status == "paid" then Some(Subscription(e.data.id, PlanOf(a), Active, Some(a.createdAt))) else current)
        && (e.eventName == SubscriptionCreated ==>
              next == if a.status == "active" then Some(Subscription(e.data.id, PlanOf(a), Active, a.renewsAt)) else current)
        && (e.eventName == SubscriptionUpdated ==> next == Some(Subscription(e.data.id, PlanOf(a), Active, a.renewsAt)))
        && (e.eventName == SubscriptionCancelled ==> next == Some(Subscription(e.data.id, PlanOf(a), Canceled, a.endsAt)))
        && (e.eventName == SubscriptionExpired ==> next.None?)
        && (e.eventName !in {OrderCreated, SubscriptionCreated, SubscriptionUpdated, SubscriptionCancelled, SubscriptionExpired} ==>
              next == current))
  {
  }

  /** What an event does to the premium gate: an update, a paid order and an
      active creation open it whatever it was; a cancellation and an
      expiry close it; anything else, and any event for another user, leave
      it as it was. */
  lemma EventsAndTheGate(userEmail: Option<string>, e: WebhookEvent, p: UserPreferences)
    ensures var q := p.(subscription := NextSnapshot(userEmail, e, p.subscription));
      && (ForOtherUser(userEmail, e) || !CallsSetter(e) ==> SubscriptionGuard.Guard(q) == SubscriptionGuard.Guard(p))
      && (!ForOtherUser(userEmail, e) && CallsSetter(e) ==>
            (SubscriptionGuard.HasActiveSubscription(q) <==> e.eventName in {OrderCreated, SubscriptionCreated, SubscriptionUpdated}))
  {
  }

  /** The `orders` query on load: the user's paid orders, newest first. */
  function PaidOrders(orders: seq<StoreTables.OrderRow>, email: string): (r: seq<StoreTables.OrderRow>)
    ensures StoreTables.CreatedDesc(r)
    ensures multiset(r) == multiset(Where(orders, (o: StoreTables.OrderRow) => o.order.customerEmail == email && o.order.status == StoreTables.Paid))
  {
    StoreTables.SortByCreatedDesc(Where(orders, (o: StoreTables.OrderRow) => o.order.customerEmail == email && o.order.status == StoreTables.Paid))
  }

  /** The snapshot built from the latest paid order: `subscription_id`, or the
      row id as a decimal string when it has none. */
  function SnapshotOf(latest: StoreTables.OrderRow): (s: Subscription)
    ensures s.status == Active && s.plan == latest.order.productName && s.renewalDate == Some(latest.order.createdAt)
    ensures latest.order.subscriptionId.Some? && latest.order.subscriptionId.value != "" ==> s.id == latest.order.subscriptionId.value
  {
    Subscription(
      OrElse(latest.order.subscriptionId, NatToString(latest.rowId)),
      latest.order.productName,
      Active,
      Some(latest.order.createdAt))
  }

  /** When the order has no subscription id, the snapshot's id reads back as its row id. */
  lemma SnapshotIdNamesTheRow(latest: StoreTables.OrderRow)
    requires latest.order.subscriptionId.None? || latest.order.subscriptionId.value == ""
    ensures forall i :: 0 <= i < |SnapshotOf(latest).id| ==> IsDigit(SnapshotOf(latest).id[i])
    ensures DecimalValue(SnapshotOf(latest).id) == latest.rowId
  {
    NatToStringRoundTrip(latest.rowId);
  }

  /** The snapshot after loading: unchanged when there are no paid orders. */
  function LoadedSnapshot(paid: seq<StoreTables.OrderRow>, current: Option<Subscription>): (r: Option<Subscription>)
    ensures |paid| == 0 ==> r == current
    ensures |paid| > 0 ==>
      r.Some? && r.value.status == Active && r.value.plan == paid[0].order.productName
      && r.value.renewalDate == Some(paid[0].order.createdAt)
  {
    if |paid| > 0 then Some(SnapshotOf(paid[0])) else current
  }

  /** On load the snapshot comes from a paid order of this user that is at
      least as recent as every other one of them, and it opens the gate;
      with no paid order it is left as it was. */
  lemma {:induction false} LoadTakesLatestPaidOrder(orders: seq<StoreTables.OrderRow>, email: string, p: UserPreferences)
    ensures var paid := PaidOrders(orders, email);
      var q := p.(subscription := LoadedSnapshot(paid, p.subscription));
      && (|paid| == 0 ==> q == p)
      && (|paid| > 0 ==>
        && paid[0] in orders && paid[0].order.customerEmail == email && paid[0].order.status == StoreTables.Paid
        && q.subscription == Some(SnapshotOf(paid[0]))
        && SubscriptionGuard.HasActiveSubscription(q)
        && forall o :: o in orders && o.order.customerEmail == email && o.order.status == StoreTables.Paid ==>
             o.order.createdAt <= paid[0].order.createdAt)
  {
    var mine := (o: StoreTables.OrderRow) => o.order.customerEmail == email && o.order.status == StoreTables.Paid;
    var paid := PaidOrders(orders, email);
    var matched := Where(orders, mine);
    if |paid| > 0 {
      assert paid[0] in multiset(matched);
      forall o | o in orders && mine(o)
        ensures o.order.createdAt <= paid[0].order.createdAt
      {
        var k :| 0 <= k < |orders| && orders[k] == o;
        assert o in matched;
        assert o in multiset(paid);
        var j :| 0 <= j < |paid| && paid[j] == o;
        if j > 0 {
          assert paid[0].order.createdAt >= paid[j].order.createdAt;
        }
      }
    }
  }

  /** The history entry a stored order becomes on load: it carries the order's
      id, and its row shows the generic label, the order's date, status and
      product, and the paid badge iff the order is paid. */
  function OrderEntry(o: StoreTables.OrderRow): (h: BillingHistory.HistoryEntry)
    ensures h.data.Some? && h.data.value.id == Some(o.order.orderId)
    ensures var row := BillingHistory.ProjectRow(h);
      && row.typeLabel == "Payment"
      && row.date == BillingHistory.LocaleDate(o.order.createdAt)
      && (row.paidBadge <==> o.order.status == StoreTables.Paid)
      && (o.order.status != "" ==> row.status == o.order.status)
      && (o.order.productName != "" ==> row.productName == o.order.productName)
      && (o.order.productName == "" ==> row.productName == "Unknown Product")
  {
    BillingHistory.HistoryEntry(None, Some(BillingHistory.EntryData(
      Some(o.order.orderId),
      Some(BillingHistory.EntryAttributes(Some(o.order.status), Some(o.order.createdAt), Some(o.order.productName))))))
  }

  /** The history entry a pushed event is: it carries the event's id, and its
      row shows the generic label, the event's date, status and product, and
      the paid badge iff the event's status is `paid`. */
  function EventEntry(e: WebhookEvent): (h: BillingHistory.HistoryEntry)
    ensures h.data.Some? && h.data.value.id == Some(e.data.id)
    ensures var a := e.data.attributes;
      var row := BillingHistory.ProjectRow(h);
      && row.typeLabel == "Payment"
      && row.date == BillingHistory.LocaleDate(a.createdAt)
      && (row.paidBadge <==> a.status == StoreTables.Paid)
      && (a.status != "" ==> row.status == a.status)
      && (ItemProductName(a).Some? && ItemProductName(a).value != "" ==> row.productName == ItemProductName(a).value)
      && (ItemProductName(a).None? || ItemProductName(a).value == "" ==> row.productName == "Unknown Product")
  {
    BillingHistory.HistoryEntry(None, Some(BillingHistory.EntryData(
      Some(e.data.id),
      Some(BillingHistory.EntryAttributes(Some(e.data.attributes.status), Some(e.data.attributes.createdAt), ItemProductName(e.data.attributes))))))
  }

  /** `orders.map(…)`: entry `i` has no top-level `type` and carries the id,
      status, date and product name of order `i`. */
  function FormattedOrders(paid: seq<StoreTables.OrderRow>): (h: seq<BillingHistory.HistoryEntry>)
    ensures |h| == |paid|
    ensures forall i :: 0 <= i < |paid| ==>
      && h[i].kind.None?
      && h[i].data == Some(BillingHistory.EntryData(
           Some(paid[i].order.orderId),
           Some(BillingHistory.EntryAttributes(
             Some(paid[i].order.status), Some(paid[i].order.createdAt), Some(paid[i].order.productName)))))
  {
    seq(|paid|, i requires 0 <= i < |paid| => OrderEntry(paid[i]))
  }

  /** The loaded history shows one row per paid order, newest first, each
      with the paid badge, the order's date and product and the generic
      `'Payment'` label. */
  lemma {:induction false} LoadedHistoryRows(orders: seq<StoreTables.OrderRow>, email: string)
    ensures var paid := PaidOrders(orders, email);
      var v := BillingHistory.Render(Some(FormattedOrders(paid)));
      && (v.Table? <==> |paid| > 0)
      && (v.Table? ==> |v.rows| == |paid|)
      && (v.Table? ==>
            forall i :: 0 <= i < |paid| ==>
              && v.rows[i].paidBadge && v.rows[i].typeLabel == "Payment"
              && v.rows[i].date == BillingHistory.LocaleDate(paid[i].order.createdAt)
              && (paid[i].order.productName != "" ==> v.rows[i].productName == paid[i].order.productName)
              && (paid[i].order.productName == "" ==> v.rows[i].productName == "Unknown Product")
              && (i > 0 ==> paid[i - 1].order.createdAt >= paid[i].order.createdAt))
  {
    var paid := PaidOrders(orders, email);
    var mine := (o: StoreTables.OrderRow) => o.order.customerEmail == email && o.order.status == StoreTables.Paid;
    forall i | 0 <= i < |paid|
      ensures paid[i].order.status == StoreTables.Paid
    {
      assert paid[i] in multiset(Where(orders, mine));
    }
  }

  /** A pushed event's row comes first, above the rows there were, which keep their order. */
  lemma {:induction false} PrependShowsNewestFirst(e: WebhookEvent, history: seq<BillingHistory.HistoryEntry>)
    ensures var v := BillingHistory.Render(Some([EventEntry(e)] + history));
      && v.Table? && |v.rows| == |history| + 1
      && v.rows[0] == BillingHistory.ProjectRow(EventEntry(e))
      && (|history| > 0 ==> v.rows[1..] == BillingHistory.Render(Some(history)).rows)
  {
    var v := BillingHistory.Render(Some([EventEntry(e)] + history));
    if |history| > 0 {
      var w := BillingHistory.Render(Some(history));
      assert forall i :: 0 <= i < |history| ==> v.rows[1..][i] == w.rows[i];
    }
  }

  /** The component's state: the payment history, the loading flag and the
      error text, with the snapshot kept in the user-preferences store. */
  class BillingPanel {
    const preferences: PreferencesStore
    var paymentHistory: seq<BillingHistory.HistoryEntry>
    var isLoading: bool
    var error: string

    constructor (preferences: PreferencesStore)
      ensures this.preferences == preferences
      ensures paymentHistory == [] && isLoading && error == ""
    {
      this.preferences := preferences;
      paymentHistory := [];
      isLoading := true;
      error := "";
    }

    /** `fetchData` against the `orders` table `orders`: `productsFail` is a
        failed product-catalogue request (it throws), `ordersQueryFails` an
        error from the orders query (it returns no data). */
    method FetchData(userEmail: Option<string>, productsFail: bool, orders: seq<StoreTables.OrderRow>, ordersQueryFails: bool)
      modifies this, preferences
      ensures !isLoading
      ensures error == if productsFail then LoadError else old(error)
      ensures var loaded := !productsFail && userEmail.Some? && userEmail.value != "" && !ordersQueryFails;
        var paid := PaidOrders(orders, if userEmail.Some? then userEmail.value else "");
        && paymentHistory == (if loaded then FormattedOrders(paid) else old(paymentHistory))
        && preferences.preferences ==
             old(preferences.preferences).(subscription :=
               if loaded then LoadedSnapshot(paid, old(preferences.preferences.subscription))
               else old(preferences.preferences.subscription))
    {
      if productsFail {
        error := LoadError;
      } else if userEmail.Some? && userEmail.value != "" {
        if !ordersQueryFails {
          var paid := PaidOrders(orders, userEmail.value);
          paymentHistory := FormattedOrders(paid);
          if |paid| > 0 {
            preferences.UpdateSubscription(Some(SnapshotOf(paid[0])));
          }
        }
      }
      isLoading := false;
    }

    /** The `subscribeToPaymentEvents` callback: `handlePaymentEvent(e)`, then
        the event goes on top of the history. */
    method OnPaymentEvent(userEmail: Option<string>, e: WebhookEvent)
      modifies this, preferences
      ensures preferences.preferences ==
        old(preferences.preferences).(subscription := NextSnapshot(userEmail, e, old(preferences.preferences.subscription)))
      ensures paymentHistory == [EventEntry(e)] + old(paymentHistory)
      ensures isLoading == old(isLoading) && error == old(error)
    {
      if !ForOtherUser(userEmail, e) && CallsSetter(e) {
        preferences.UpdateSubscription(SetterArgument(e));
      }
      paymentHistory := [EventEntry(e)] + paymentHistory;
    }
  }
}
