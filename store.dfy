/** The entitlement store of src/server/database.js: the `orders` and
    `subscriptions` tables held in place of the Supabase client, with
    `saveOrder`, `updateSubscription`, `handleSubscriptionExpiry` and the two
    read queries. Every write keeps the tables equal to the matching
    transition of module StoreTables, and keeps its invariant (order ids
    unique, subscription ids unique, at most one active subscription per
    customer). */
module EntitlementStore {
  import opened Common
  import opened StoreTables

  class Store {
    var orders: seq<OrderRow>
    var subscriptions: seq<Subscription>
    /** The next value of the database's `orders.id` sequence. */
    var nextRowId: nat

    function State(): Tables
      reads this
    {
      Tables(orders, subscriptions, nextRowId)
    }

    ghost predicate Valid()
      reads this
    {
      StoreTables.Valid(State())
    }

    constructor ()
      ensures Valid()
      ensures State() == Tables([], [], 0)
    {
      orders := [];
      subscriptions := [];
      nextRowId := 0;
    }

    /** `saveOrder(orderData)`, with `now` the clock reading and
        `insertFails` an error returned by the insert. */
    method SaveOrder(d: OrderData, now: Time, insertFails: bool) returns (r: Result<OrderRow>)
      requires Valid()
      modifies this
      ensures Valid()
      ensures var s := SaveOrderOn(old(State()), d, now, insertFails);
        State() == s.tables && r == s.result
    {
      SaveOrderPreservesValid(State(), d, now, insertFails);
      var existing := FirstMatch(orders, (o: OrderRow) => HasOrderId(o, d.orderId));
      if existing.Some? {
        return Ok(orders[existing.value]);
      }
      var row := OrderRow(nextRowId, d, OneMonthAfter(now));
      if insertFails {
        return Err;
      }
      orders := orders + [row];
      nextRowId := nextRowId + 1;
      r := Ok(row);
    }

    /** `updateSubscription(subscriptionData)`, with `upsertFails` an error
        returned by the upsert. */
    method UpdateSubscription(d: Subscription, now: Time, upsertFails: bool) returns (r: Result<Subscription>)
      requires Valid()
      modifies this
      ensures Valid()
      ensures var s := UpsertOn(old(State()), d, now, upsertFails);
        State() == s.tables && r == s.result
    {
      UpsertPreservesValid(State(), d, now, upsertFails);
      if d.status == Active {
        var existing := FirstMatch(subscriptions, (s: Subscription) => ConflictsWith(s, d));
        if existing.Some? {
          return Ok(subscriptions[existing.value]);
        }
      }
      var row := d;
      if d.status == Active {
        row := d.(expiresAt := OneMonthAfter(now));
      }
      if upsertFails {
        return Err;
      }
      subscriptions := UpsertById(subscriptions, row);
      r := Ok(row);
    }

    /** `handleSubscriptionExpiry()`, run at time `now`. A failed query
        throws (`ok` is false) before anything is written; an error on one
        record is caught and the loop goes on with the next. */
    method HandleSubscriptionExpiry(now: Time, faults: SweepFaults) returns (ok: bool)
      requires Valid()
      modifies this
      ensures Valid()
      ensures ok == !faults.queryFails
      ensures ok ==> SweepOn(old(State()), now, faults) == Ok(State())
      ensures !ok ==> State() == old(State())
    {
      if faults.queryFails {
        return false;
      }
      SweepPreservesValid(State(), now, faults);
      var expired := StaleRows(subscriptions, now);
      for k := 0 to |expired|
        invariant ExpireAll(State(), expired[k..], faults) == ExpireAll(old(State()), expired, faults)
      {
        var s := expired[k];
        assert expired[k..][1..] == expired[k + 1..];
        if s.id !in faults.updateFails {
          subscriptions := ExpireIds(subscriptions, {s.id});
          if s.id !in faults.deleteFails {
            orders := DropLinked(orders, {s.id});
          }
        }
      }
      ok := true;
    }

    /** `getActiveSubscription(customerEmail)`: the customer's active
        subscription or none ("no row" is not an error); a failed query
        throws. */
    function GetActiveSubscription(customerEmail: string, queryFails: bool): (r: Result<Option<Subscription>>)
      reads this
      requires Valid()
      ensures r.Err? <==> queryFails
      ensures r.Ok? && r.value.Some? ==>
        r.value.value in subscriptions && IsActive(r.value.value) && r.value.value.customerId == Some(customerEmail)
      ensures r.Ok? ==> forall j :: 0 <= j < |subscriptions| && IsActive(subscriptions[j]) &&
                                    subscriptions[j].customerId == Some(customerEmail) ==>
                                      r.value == Some(subscriptions[j])
    {
      ActiveSubscriptionForIsTheOne(subscriptions, customerEmail);
      if queryFails then Err else Ok(ActiveSubscriptionFor(subscriptions, customerEmail))
    }

    /** `getOrderHistory(customerEmail)`: that customer's orders, newest
        first; a failed query throws. */
    function GetOrderHistory(customerEmail: string, queryFails: bool): (r: Result<seq<OrderRow>>)
      reads this
      ensures r.Err? <==> queryFails
      ensures r.Ok? ==> CreatedDesc(r.value)
      ensures r.Ok? ==> multiset(r.value) == multiset(Where(orders, (o: OrderRow) => o.order.customerEmail == customerEmail))
      ensures r.Ok? ==> forall i :: 0 <= i < |r.value| ==> r.value[i] in orders && r.value[i].order.customerEmail == customerEmail
    {
      if queryFails then Err else Ok(OrderHistory(orders, customerEmail))
    }
  }
}
