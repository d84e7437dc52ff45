/** The `orders` and `subscriptions` tables of the entitlement store
    (src/server/database.js) as values, with the store's three writes as
    transitions of those values and the queries as functions over them. The
    `Store` class in module EntitlementStore keeps its tables equal to these. */
module StoreTables {
  import opened Common

  /** The record `processOrderData` builds and `saveOrder` receives. */
  datatype OrderData = OrderData(
    orderId: string,
    orderNumber: string,
    customerEmail: string,
    customerName: string,
    total: int,
    currency: string,
    status: string,
    testMode: bool,
    createdAt: Time,
    productName: string,
    variantName: string,
    subscriptionId: Option<string>,
    processed: bool)

  /** A row of `orders`: the saved record, the expiry `saveOrder` adds and
      the numeric `id` the database assigns on insert. */
  datatype OrderRow = OrderRow(rowId: nat, order: OrderData, expiresAt: Time)

  /** A row of `subscriptions`, keyed by the provider's subscription id. */
  datatype Subscription = Subscription(
    id: string,
    status: string,
    renewsAt: Option<Time>,
    endsAt: Option<Time>,
    expiresAt: Time,
    createdAt: Time,
    updatedAt: Time,
    customerId: Option<string>,
    productId: Option<string>,
    variantId: Option<string>)

  datatype Tables = Tables(orders: seq<OrderRow>, subscriptions: seq<Subscription>, nextRowId: nat)

  /** A store write: the tables afterwards and what the call returns (or `Err` when it throws). */
  datatype Step<T> = Step(tables: Tables, result: Result<T>)

  const Active := "active"
  const ExpiredStatus := "expired"
  const Paid := "paid"

  predicate IsActive(s: Subscription) {
    s.status == Active
  }

  /** Active and past its local expiry: what the sweep selects. */
  predicate IsStale(s: Subscription, now: Time) {
    IsActive(s) && s.expiresAt <= now
  }

  // ---------------------------------------------------------------------
  // The invariant the store keeps

  ghost predicate UniqueOrderIds(orders: seq<OrderRow>) {
    forall i, j :: 0 <= i < j < |orders| ==> orders[i].order.orderId != orders[j].order.orderId
  }

  ghost predicate RowIdsBelow(orders: seq<OrderRow>, bound: nat) {
    forall i :: 0 <= i < |orders| ==> orders[i].rowId < bound
  }

  ghost predicate UniqueSubscriptionIds(subs: seq<Subscription>) {
    forall i, j :: 0 <= i < j < |subs| ==> subs[i].id != subs[j].id
  }

  /** At most one `active` subscription per customer id. */
  ghost predicate OneActivePerCustomer(subs: seq<Subscription>) {
    forall i, j :: 0 <= i < j < |subs| && IsActive(subs[i]) && IsActive(subs[j]) && subs[i].customerId.Some?
      ==> subs[i].customerId != subs[j].customerId
  }

  ghost predicate Valid(t: Tables) {
    && UniqueOrderIds(t.orders)
    && RowIdsBelow(t.orders, t.nextRowId)
    && UniqueSubscriptionIds(t.subscriptions)
    && OneActivePerCustomer(t.subscriptions)
  }

  // ---------------------------------------------------------------------
  // saveOrder

  predicate HasOrderId(r: OrderRow, orderId: string) {
    r.order.orderId == orderId
  }

  /** `saveOrder`: an existing `order_id` returns the stored row and writes
      nothing; otherwise the record is inserted with an expiry one month
      from `now`. `insertFails` stands for an error from the insert. */
  function SaveOrderOn(t: Tables, d: OrderData, now: Time, insertFails: bool): (s: Step<OrderRow>)
    ensures s.tables.subscriptions == t.subscriptions
    ensures s.result.Err? <==> insertFails && forall i :: 0 <= i < |t.orders| ==> t.orders[i].order.orderId != d.orderId
    ensures s.result.Err? ==> s.tables == t
    ensures s.result.Ok? ==> s.result.value in s.tables.orders && s.result.value.order.orderId == d.orderId
  {
    match FirstMatch(t.orders, (r: OrderRow) => HasOrderId(r, d.orderId))
    case Some(i) => Step(t, Ok(t.orders[i]))
    case None =>
      if insertFails then Step(t, Err)
      else
        var row := OrderRow(t.nextRowId, d, OneMonthAfter(now));
        Step(t.(orders := t.orders + [row], nextRowId := t.nextRowId + 1), Ok(row))
  }

  /** An `order_id` already stored: that row is returned and both tables stay as they were. */
  lemma SaveOrderExisting(t: Tables, d: OrderData, now: Time, insertFails: bool, i: nat)
    requires Valid(t)
    requires i < |t.orders| && t.orders[i].order.orderId == d.orderId
    ensures SaveOrderOn(t, d, now, insertFails) == Step(t, Ok(t.orders[i]))
  {
    var m := FirstMatch(t.orders, (r: OrderRow) => HasOrderId(r, d.orderId));
    assert m.Some?;
  }

  /** A new `order_id`: exactly one row is appended, carrying the input record and an expiry a month from `now`. */
  lemma SaveOrderNew(t: Tables, d: OrderData, now: Time)
    requires forall i :: 0 <= i < |t.orders| ==> t.orders[i].order.orderId != d.orderId
    ensures var s := SaveOrderOn(t, d, now, false);
      && s.result == Ok(OrderRow(t.nextRowId, d, now + MonthMillis))
      && s.tables.orders == t.orders + [s.result.value]
      && s.tables.subscriptions == t.subscriptions
  {
  }

  /** Saving the same record again changes nothing and returns what the first save returned. */
  lemma SaveOrderIdempotent(t: Tables, d: OrderData, now: Time, now2: Time, fails2: bool)
    requires Valid(t)
    ensures var s := SaveOrderOn(t, d, now, false);
      SaveOrderOn(s.tables, d, now2, fails2) == s
  {
    SaveOrderPreservesValid(t, d, now, false);
    var s := SaveOrderOn(t, d, now, false);
    var m := FirstMatch(t.orders, (r: OrderRow) => HasOrderId(r, d.orderId));
    if m.Some? {
      SaveOrderExisting(t, d, now2, fails2, m.value);
    } else {
      SaveOrderNew(t, d, now);
      SaveOrderExisting(s.tables, d, now2, fails2, |t.orders|);
    }
  }

  lemma SaveOrderPreservesValid(t: Tables, d: OrderData, now: Time, insertFails: bool)
    requires Valid(t)
    ensures Valid(SaveOrderOn(t, d, now, insertFails).tables)
  {
    var m := FirstMatch(t.orders, (r: OrderRow) => HasOrderId(r, d.orderId));
    if m.None? && !insertFails {
      var t' := SaveOrderOn(t, d, now, insertFails).tables;
      assert t'.orders == t.orders + [OrderRow(t.nextRowId, d, OneMonthAfter(now))];
      forall i, j | 0 <= i < j < |t'.orders|
        ensures t'.orders[i].order.orderId != t'.orders[j].order.orderId
      {
        if j == |t.orders| {
          assert !HasOrderId(t.orders[i], d.orderId);
        }
      }
    }
  }

  // ---------------------------------------------------------------------
  // updateSubscription

  /** The conflict query: another (`id` differs) `active` subscription of the same customer.
      `.eq('customer_id', undefined)` matches no row, so a record without a customer id never conflicts. */
  predicate ConflictsWith(s: Subscription, d: Subscription) {
    IsActive(s) && d.customerId.Some? && s.customerId == d.customerId && s.id != d.id
  }

  /** Insert-or-replace keyed by `id`. */
  function UpsertById(subs: seq<Subscription>, row: Subscription): (r: seq<Subscription>)
    ensures row in r
    ensures |r| == |subs| || r == subs + [row]
    ensures forall j :: 0 <= j < |subs| && subs[j].id != row.id ==> j < |r| && r[j] == subs[j]
  {
    match FirstMatch(subs, (s: Subscription) => s.id == row.id)
    case Some(i) => assert subs[i := row][i] == row; subs[i := row]
    case None => subs + [row]
  }

  /** The row that is written: an `active` record gets a fresh expiry, any other keeps the caller's. */
  function Stamped(d: Subscription, now: Time): (r: Subscription)
    ensures r.(expiresAt := d.expiresAt) == d
    ensures d.status == Active ==> r.expiresAt == now + MonthMillis
    ensures d.status != Active ==> r == d
  {
    if d.status == Active then d.(expiresAt := OneMonthAfter(now)) else d
  }

  /** `updateSubscription`: an `active` record loses to an existing active
      subscription of the same customer (first active wins), which is returned
      and nothing is written; otherwise the stamped record is upserted.
      `upsertFails` stands for an error from the upsert. */
  function UpsertOn(t: Tables, d: Subscription, now: Time, upsertFails: bool): (s: Step<Subscription>)
    ensures s.tables.orders == t.orders && s.tables.nextRowId == t.nextRowId
    ensures s.result.Err? ==> s.tables == t
    ensures s.result.Ok? ==> s.result.value in s.tables.subscriptions
    ensures s.result.Ok? && s.tables != t ==> s.result.value.id == d.id && s.result.value.status == d.status
  {
    var conflict := if d.status == Active then FirstMatch(t.subscriptions, (s: Subscription) => ConflictsWith(s, d)) else None;
    if conflict.Some? then Step(t, Ok(t.subscriptions[conflict.value]))
    else if upsertFails then Step(t, Err)
    else
      var row := Stamped(d, now);
      Step(t.(subscriptions := UpsertById(t.subscriptions, row)), Ok(row))
  }

  /** Under the invariant the conflict query has at most one match, so a first match is the single one. */
  lemma ConflictIsUnique(subs: seq<Subscription>, d: Subscription, i: nat, j: nat)
    requires OneActivePerCustomer(subs)
    requires i < |subs| && j < |subs| && ConflictsWith(subs[i], d) && ConflictsWith(subs[j], d)
    ensures i == j
  {
  }

  /** First active wins: another active subscription of the customer is returned and nothing changes. */
  lemma FirstActiveWins(t: Tables, d: Subscription, now: Time, upsertFails: bool, i: nat)
    requires Valid(t)
    requires d.status == Active
    requires i < |t.subscriptions| && ConflictsWith(t.subscriptions[i], d)
    ensures UpsertOn(t, d, now, upsertFails) == Step(t, Ok(t.subscriptions[i]))
  {
    var m := FirstMatch(t.subscriptions, (s: Subscription) => ConflictsWith(s, d));
    assert m.Some?;
    ConflictIsUnique(t.subscriptions, d, m.value, i);
  }

  /** What the upsert writes: the row with `row.id` is replaced in place, or appended when absent; no other row changes. */
  lemma UpsertByIdEffect(subs: seq<Subscription>, row: Subscription)
    requires UniqueSubscriptionIds(subs)
    ensures var r := UpsertById(subs, row);
      && ((exists i :: 0 <= i < |subs| && subs[i].id == row.id) ==>
            |r| == |subs| && forall j :: 0 <= j < |subs| ==> r[j] == if subs[j].id == row.id then row else subs[j])
      && ((forall i :: 0 <= i < |subs| ==> subs[i].id != row.id) ==> r == subs + [row])
  {
    var m := FirstMatch(subs, (s: Subscription) => s.id == row.id);
    if m.Some? {
      assert forall j :: 0 <= j < |subs| && subs[j].id == row.id ==> j == m.value;
    }
  }

  /** When the upsert goes through, the row keyed by `d.id` is the stamped record and every other row is untouched. */
  lemma UpsertProceeds(t: Tables, d: Subscription, now: Time)
    requires Valid(t)
    requires d.status != Active || forall i :: 0 <= i < |t.subscriptions| ==> !ConflictsWith(t.subscriptions[i], d)
    ensures var s := UpsertOn(t, d, now, false);
      && s.result == Ok(Stamped(d, now))
      && s.tables.orders == t.orders
      && s.tables.subscriptions == UpsertById(t.subscriptions, Stamped(d, now))
      && (d.status == Active ==> s.result.value.expiresAt == now + MonthMillis)
      && (d.status != Active ==> s.result.value == d)
  {
  }

  /** `updateSubscription` keeps at most one active subscription per customer. */
  lemma UpsertPreservesValid(t: Tables, d: Subscription, now: Time, upsertFails: bool)
    requires Valid(t)
    ensures Valid(UpsertOn(t, d, now, upsertFails).tables)
  {
    var s := UpsertOn(t, d, now, upsertFails);
    var subs := t.subscriptions;
    var conflict := if d.status == Active then FirstMatch(subs, (x: Subscription) => ConflictsWith(x, d)) else None;
    if conflict.None? && !upsertFails {
      var row := Stamped(d, now);
      var r := UpsertById(subs, row);
      assert s.tables.subscriptions == r;
      UpsertByIdEffect(subs, row);
      assert row.id == d.id && row.status == d.status && row.customerId == d.customerId;
      if exists i :: 0 <= i < |subs| && subs[i].id == row.id {
        forall i, j | 0 <= i < j < |r| ensures r[i].id != r[j].id {
          assert r[i] == (if subs[i].id == row.id then row else subs[i]);
          assert r[j] == (if subs[j].id == row.id then row else subs[j]);
        }
        forall i, j | 0 <= i < j < |r| && IsActive(r[i]) && IsActive(r[j]) && r[i].customerId.Some?
          ensures r[i].customerId != r[j].customerId
        {
          if subs[i].id == row.id {
            assert !ConflictsWith(subs[j], d);
          } else if subs[j].id == row.id {
            assert !ConflictsWith(subs[i], d);
          }
        }
      } else {
        assert r == subs + [row];
        forall i, j | 0 <= i < j < |r| && IsActive(r[i]) && IsActive(r[j]) && r[i].customerId.Some?
          ensures r[i].customerId != r[j].customerId
        {
          if j == |subs| {
            assert !ConflictsWith(subs[i], d);
          }
        }
      }
    }
  }

  // ---------------------------------------------------------------------
  // handleSubscriptionExpiry

  function Expire(s: Subscription): Subscription {
    s.(status := ExpiredStatus)
  }

  /** `.update({ status: 'expired' })` on the rows whose `id` is in `ids`. */
  function ExpireIds(subs: seq<Subscription>, ids: set<string>): (r: seq<Subscription>)
    ensures |r| == |subs|
    ensures forall j :: 0 <= j < |subs| ==> r[j] == if subs[j].id in ids then Expire(subs[j]) else subs[j]
  {
    seq(|subs|, j requires 0 <= j < |subs| => if subs[j].id in ids then Expire(subs[j]) else subs[j])
  }

  predicate LinkedTo(o: OrderRow, ids: set<string>) {
    o.order.subscriptionId.Some? && o.order.subscriptionId.value in ids
  }

  /** `.delete().eq('subscription_id', id)` for every `id` in `ids`. */
  function DropLinked(orders: seq<OrderRow>, ids: set<string>): (r: seq<OrderRow>)
    ensures forall i :: 0 <= i < |r| ==> r[i] in orders && !LinkedTo(r[i], ids)
    ensures forall i :: 0 <= i < |orders| && !LinkedTo(orders[i], ids) ==> orders[i] in r
  {
    Where(orders, (o: OrderRow) => !LinkedTo(o, ids))
  }

  /** The rows the sweep's query returns, in table order. */
  function StaleRows(subs: seq<Subscription>, now: Time): (r: seq<Subscription>)
    ensures forall i :: 0 <= i < |r| ==> r[i] in subs && IsStale(r[i], now)
    ensures forall i :: 0 <= i < |subs| && IsStale(subs[i], now) ==> subs[i] in r
  {
    Where(subs, (s: Subscription) => IsStale(s, now))
  }

  /** Store errors the sweep may meet: the initial query, or the update or the delete of one record. */
  datatype SweepFaults = SweepFaults(queryFails: bool, updateFails: set<string>, deleteFails: set<string>)

  const NoFaults := SweepFaults(false, {}, {})

  /** One iteration of the sweep for subscription `s`: a failed update skips the
      delete; a failed delete leaves the update in place; neither stops the loop. */
  function ExpireOne(t: Tables, s: Subscription, f: SweepFaults): (r: Tables)
    ensures s.id in f.updateFails ==> r == t
    ensures r.nextRowId == t.nextRowId && |r.subscriptions| == |t.subscriptions|
    ensures forall o :: o in r.orders ==> o in t.orders
  {
    if s.id in f.updateFails then t
    else
      t.(subscriptions := ExpireIds(t.subscriptions, {s.id}),
         orders := if s.id in f.deleteFails then t.orders else DropLinked(t.orders, {s.id}))
  }

  /** The loop over the selected rows. */
  function ExpireAll(t: Tables, rows: seq<Subscription>, f: SweepFaults): (r: Tables)
    ensures r.nextRowId == t.nextRowId && |r.subscriptions| == |t.subscriptions|
    ensures forall o :: o in r.orders ==> o in t.orders
    decreases |rows|
  {
    if |rows| == 0 then t else ExpireAll(ExpireOne(t, rows[0], f), rows[1..], f)
  }

  /** `handleSubscriptionExpiry(now)`: a failed query throws before anything is written. */
  function SweepOn(t: Tables, now: Time, f: SweepFaults): (r: Result<Tables>)
    ensures r.Err? <==> f.queryFails
    ensures r.Ok? ==> r.value.nextRowId == t.nextRowId && |r.value.subscriptions| == |t.subscriptions|
    ensures r.Ok? ==> forall o :: o in r.value.orders ==> o in t.orders
  {
    if f.queryFails then Err else Ok(ExpireAll(t, StaleRows(t.subscriptions, now), f))
  }

  function IdsOf(rows: seq<Subscription>): set<string> {
    set i | 0 <= i < |rows| :: rows[i].id
  }

  lemma ExpireIdsTwice(subs: seq<Subscription>, a: set<string>, b: set<string>)
    ensures ExpireIds(ExpireIds(subs, a), b) == ExpireIds(subs, a + b)
  {
    var l := ExpireIds(ExpireIds(subs, a), b);
    var r := ExpireIds(subs, a + b);
    assert |l| == |r|;
    forall j | 0 <= j < |l| ensures l[j] == r[j] {
      assert ExpireIds(subs, a)[j].id == subs[j].id;
    }
  }

  lemma DropLinkedTwice(orders: seq<OrderRow>, a: set<string>, b: set<string>)
    ensures DropLinked(DropLinked(orders, a), b) == DropLinked(orders, a + b)
  {
    WhereWhere(orders, (o: OrderRow) => !LinkedTo(o, a), (o: OrderRow) => !LinkedTo(o, b), (o: OrderRow) => !LinkedTo(o, a + b));
  }

  lemma DropLinkedNothing(orders: seq<OrderRow>, ids: set<string>)
    requires ids == {}
    ensures DropLinked(orders, ids) == orders
  {
    WhereAll(orders, (o: OrderRow) => !LinkedTo(o, ids));
  }

  /** The loop's net effect: every row whose id was selected and whose update
      succeeded is expired; the orders linked to ids whose update and delete
      both succeeded are gone; nothing else changes. */
  lemma {:induction false} ExpireAllEffect(t: Tables, rows: seq<Subscription>, f: SweepFaults)
    ensures ExpireAll(t, rows, f) == t.(
      subscriptions := ExpireIds(t.subscriptions, IdsOf(rows) - f.updateFails),
      orders := DropLinked(t.orders, IdsOf(rows) - f.updateFails - f.deleteFails))
    decreases |rows|
  {
    if |rows| == 0 {
      assert IdsOf(rows) == {};
      assert ExpireIds(t.subscriptions, IdsOf(rows) - f.updateFails) == t.subscriptions;
      DropLinkedNothing(t.orders, IdsOf(rows) - f.updateFails - f.deleteFails);
    } else {
      var s := rows[0];
      var t1 := ExpireOne(t, s, f);
      ExpireAllEffect(t1, rows[1..], f);
      var rest := IdsOf(rows[1..]);
      assert IdsOf(rows) == {s.id} + rest by {
        forall x | x in IdsOf(rows) ensures x in {s.id} + rest {
          var i :| 0 <= i < |rows| && rows[i].id == x;
          if i > 0 { assert rows[1..][i - 1] == rows[i]; }
        }
        forall x | x in rest ensures x in IdsOf(rows) {
          var i :| 0 <= i < |rows[1..]| && rows[1..][i].id == x;
          assert rows[i + 1].id == x;
        }
      }
      if s.id in f.updateFails {
        assert IdsOf(rows) - f.updateFails == rest - f.updateFails;
        assert IdsOf(rows) - f.updateFails - f.deleteFails == rest - f.updateFails - f.deleteFails;
      } else {
        ExpireIdsTwice(t.subscriptions, {s.id}, rest - f.updateFails);
        assert {s.id} + (rest - f.updateFails) == IdsOf(rows) - f.updateFails;
        if s.id in f.deleteFails {
          assert IdsOf(rows) - f.updateFails - f.deleteFails == rest - f.updateFails - f.deleteFails;
        } else {
          DropLinkedTwice(t.orders, {s.id}, rest - f.updateFails - f.deleteFails);
          assert {s.id} + (rest - f.updateFails - f.deleteFails) == IdsOf(rows) - f.updateFails - f.deleteFails;
        }
      }
    }
  }

  /** Under unique ids, a row's id is among the selected ids exactly when the row itself is stale. */
  lemma StaleIds(subs: seq<Subscription>, now: Time, j: nat)
    requires UniqueSubscriptionIds(subs)
    requires j < |subs|
    ensures subs[j].id in IdsOf(StaleRows(subs, now)) <==> IsStale(subs[j], now)
  {
    var rows := StaleRows(subs, now);
    if IsStale(subs[j], now) {
      assert subs[j] in rows;
      var i :| 0 <= i < |rows| && rows[i] == subs[j];
    }
    if subs[j].id in IdsOf(rows) {
      var i :| 0 <= i < |rows| && rows[i].id == subs[j].id;
      assert rows[i] in subs && IsStale(rows[i], now);
      var k :| 0 <= k < |subs| && subs[k] == rows[i];
      assert k == j;
    }
  }

  /** The ids whose orders a sweep deletes. */
  function SweptIds(subs: seq<Subscription>, now: Time, f: SweepFaults): set<string> {
    IdsOf(StaleRows(subs, now)) - f.updateFails - f.deleteFails
  }

  /** The sweep's result row by row: a stale row whose update did not fail is expired, every other row is as it was. */
  lemma SweepEffect(t: Tables, now: Time, f: SweepFaults)
    requires Valid(t) && !f.queryFails
    ensures var t' := SweepOn(t, now, f).value;
      && t'.nextRowId == t.nextRowId
      && |t'.subscriptions| == |t.subscriptions|
      && (forall j :: 0 <= j < |t.subscriptions| ==>
            t'.subscriptions[j] == if IsStale(t.subscriptions[j], now) && t.subscriptions[j].id !in f.updateFails
                                   then Expire(t.subscriptions[j]) else t.subscriptions[j])
      && t'.orders == DropLinked(t.orders, SweptIds(t.subscriptions, now, f))
  {
    var subs := t.subscriptions;
    ExpireAllEffect(t, StaleRows(subs, now), f);
    forall j | 0 <= j < |subs| ensures subs[j].id in IdsOf(StaleRows(subs, now)) <==> IsStale(subs[j], now) {
      StaleIds(subs, now, j);
    }
  }

  /** With no store error, no `active` subscription with `expires_at <= now` survives a sweep. */
  lemma SweepLeavesNoStaleActive(t: Tables, now: Time)
    requires Valid(t)
    ensures forall j :: 0 <= j < |SweepOn(t, now, NoFaults).value.subscriptions| ==>
      !IsStale(SweepOn(t, now, NoFaults).value.subscriptions[j], now)
  {
    SweepEffect(t, now, NoFaults);
  }

  /** An order survives the sweep exactly when it is not linked to a swept subscription. */
  lemma SweepOrders(t: Tables, now: Time, f: SweepFaults, o: OrderRow)
    requires Valid(t) && !f.queryFails
    ensures o in SweepOn(t, now, f).value.orders <==> o in t.orders && !LinkedTo(o, SweptIds(t.subscriptions, now, f))
  {
    SweepEffect(t, now, f);
    var ids := SweptIds(t.subscriptions, now, f);
    var kept := DropLinked(t.orders, ids);
    if o in kept {
      var i :| 0 <= i < |kept| && kept[i] == o;
    }
    if o in t.orders && !LinkedTo(o, ids) {
      var i :| 0 <= i < |t.orders| && t.orders[i] == o;
    }
  }

  /** A sweep keeps the invariant (it only ever demotes rows). */
  lemma SweepPreservesValid(t: Tables, now: Time, f: SweepFaults)
    requires Valid(t) && !f.queryFails
    ensures Valid(SweepOn(t, now, f).value)
  {
    SweepEffect(t, now, f);
    var t' := SweepOn(t, now, f).value;
    var ids := SweptIds(t.subscriptions, now, f);
    var kept := DropLinked(t.orders, ids);
    assert t'.orders == kept;
    forall i, j | 0 <= i < j < |kept| ensures kept[i].order.orderId != kept[j].order.orderId {
      OrderOfDropLinked(t.orders, ids, i, j);
    }
    forall i | 0 <= i < |kept| ensures kept[i].rowId < t'.nextRowId {
      assert kept[i] in t.orders;
    }
  }

  /** Filtering keeps distinct order ids distinct (a filtered list is an ordered sublist). */
  lemma {:induction false} OrderOfDropLinked(orders: seq<OrderRow>, ids: set<string>, i: nat, j: nat)
    requires UniqueOrderIds(orders)
    requires i < j < |DropLinked(orders, ids)|
    ensures DropLinked(orders, ids)[i].order.orderId != DropLinked(orders, ids)[j].order.orderId
    decreases |orders|
  {
    var p := (o: OrderRow) => !LinkedTo(o, ids);
    var tail := orders[1..];
    assert UniqueOrderIds(tail) by {
      forall a, b | 0 <= a < b < |tail| ensures tail[a].order.orderId != tail[b].order.orderId {
        assert tail[a] == orders[a + 1] && tail[b] == orders[b + 1];
      }
    }
    if p(orders[0]) {
      var k := DropLinked(orders, ids);
      assert k == [orders[0]] + DropLinked(tail, ids);
      if i == 0 {
        assert k[j] in tail;
        var b :| 0 <= b < |tail| && tail[b] == k[j];
        assert orders[b + 1] == k[j];
      } else {
        OrderOfDropLinked(tail, ids, i - 1, j - 1);
      }
    } else {
      OrderOfDropLinked(tail, ids, i, j);
    }
  }

  /** A second sweep at the same `now` finds nothing to do. */
  lemma SweepIdempotent(t: Tables, now: Time)
    requires Valid(t)
    ensures var t' := SweepOn(t, now, NoFaults).value;
      SweepOn(t', now, NoFaults) == Ok(t')
  {
    SweepLeavesNoStaleActive(t, now);
    var t' := SweepOn(t, now, NoFaults).value;
    WhereNone(t'.subscriptions, (s: Subscription) => IsStale(s, now));
  }

  lemma {:induction false} WhereNone<T>(s: seq<T>, p: T -> bool)
    requires forall i :: 0 <= i < |s| ==> !p(s[i])
    ensures Where(s, p) == []
  {
    if |s| > 0 {
      WhereNone(s[1..], p);
    }
  }

  // ---------------------------------------------------------------------
  // Queries

  /** `getActiveSubscription`: the active row of a customer, or none.
      (`.single()` finds a row only when exactly one matches; under the invariant that is every match.) */
  function ActiveSubscriptionFor(subs: seq<Subscription>, customerId: string): (r: Option<Subscription>)
    ensures r.Some? ==> r.value in subs && IsActive(r.value) && r.value.customerId == Some(customerId)
    ensures r.None? ==> forall j :: 0 <= j < |subs| ==> !IsActive(subs[j]) || subs[j].customerId != Some(customerId)
  {
    match FirstMatch(subs, (s: Subscription) => IsActive(s) && s.customerId == Some(customerId))
    case Some(i) => Some(subs[i])
    case None => None
  }

  lemma ActiveSubscriptionForIsTheOne(subs: seq<Subscription>, customerId: string)
    requires OneActivePerCustomer(subs)
    ensures var r := ActiveSubscriptionFor(subs, customerId);
      && (r.Some? ==> r.value in subs && IsActive(r.value) && r.value.customerId == Some(customerId))
      && (forall j :: 0 <= j < |subs| && IsActive(subs[j]) && subs[j].customerId == Some(customerId) ==> r == Some(subs[j]))
  {
    var m := FirstMatch(subs, (s: Subscription) => IsActive(s) && s.customerId == Some(customerId));
    forall j | 0 <= j < |subs| && IsActive(subs[j]) && subs[j].customerId == Some(customerId)
      ensures m == Some(j)
    {
      assert m.Some?;
    }
  }

  predicate CreatedDesc(rows: seq<OrderRow>) {
    forall i, j :: 0 <= i < j < |rows| ==> rows[i].order.createdAt >= rows[j].order.createdAt
  }

  /** A row no older than any row of a list sorted newest first can go in front of it. */
  lemma ConsCreatedDesc(h: OrderRow, rows: seq<OrderRow>)
    requires CreatedDesc(rows)
    requires forall i :: 0 <= i < |rows| ==> rows[i].order.createdAt <= h.order.createdAt
    ensures CreatedDesc([h] + rows)
  {
  }

  /** Every row of `rest`, which holds the rows of `tail` and `x`, is no newer than `bound` when they are not. */
  lemma MultisetBound(rest: seq<OrderRow>, tail: seq<OrderRow>, x: OrderRow, bound: int)
    requires multiset(rest) == multiset(tail) + multiset{x}
    requires x.order.createdAt <= bound
    requires forall i :: 0 <= i < |tail| ==> tail[i].order.createdAt <= bound
    ensures forall i :: 0 <= i < |rest| ==> rest[i].order.createdAt <= bound
  {
    forall i | 0 <= i < |rest|
      ensures rest[i].order.createdAt <= bound
    {
      assert rest[i] in multiset(rest);
      if rest[i] != x {
        assert rest[i] in multiset(tail);
        var k :| 0 <= k < |tail| && tail[k] == rest[i];
      }
    }
  }

  function InsertByCreatedDesc(x: OrderRow, rows: seq<OrderRow>): (r: seq<OrderRow>)
    requires CreatedDesc(rows)
    ensures CreatedDesc(r)
    ensures multiset(r) == multiset(rows) + multiset{x}
  {
    if |rows| == 0 then [x]
    else if x.order.createdAt >= rows[0].order.createdAt then
      ConsCreatedDesc(x, rows);
      [x] + rows
    else
      var rest := InsertByCreatedDesc(x, rows[1..]);
      assert rows == [rows[0]] + rows[1..];
      assert forall i :: 0 <= i < |rows[1..]| ==> rows[1..][i] == rows[i + 1];
      MultisetBound(rest, rows[1..], x, rows[0].order.createdAt);
      ConsCreatedDesc(rows[0], rest);
      [rows[0]] + rest
  }

  /** `.order('created_at', { ascending: false })`: newest first, same rows. */
  function SortByCreatedDesc(rows: seq<OrderRow>): (r: seq<OrderRow>)
    ensures CreatedDesc(r)
    ensures multiset(r) == multiset(rows)
  {
    if |rows| == 0 then []
    else
      assert rows == [rows[0]] + rows[1..];
      InsertByCreatedDesc(rows[0], SortByCreatedDesc(rows[1..]))
  }

  /** `getOrderHistory(email)`: the customer's orders, newest first. */
  function OrderHistory(orders: seq<OrderRow>, email: string): (r: seq<OrderRow>)
    ensures CreatedDesc(r)
    ensures multiset(r) == multiset(Where(orders, (o: OrderRow) => o.order.customerEmail == email))
    ensures forall i :: 0 <= i < |r| ==> r[i] in orders && r[i].order.customerEmail == email
  {
    var mine := Where(orders, (o: OrderRow) => o.order.customerEmail == email);
    var r := SortByCreatedDesc(mine);
    assert forall i :: 0 <= i < |r| ==> r[i] in multiset(mine);
    r
  }
}
