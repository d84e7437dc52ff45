# Subscription entitlement in the YouTube content generator

This project is a Dafny model of how the YouTube content generator decides
who has a paid plan. It covers:

- the webhook server that receives billing events from Lemon Squeezy;
- the entitlement store the server writes (orders and subscriptions);
- the client-side snapshot of the user's subscription;
- the decisions the client makes from that snapshot.

Server side:

- `StoreTables` (store_tables.dfy) holds the two tables as values. Each
  store operation is a pure transition over them, proved against the table
  invariant: order ids unique, subscription ids unique, at most one `active`
  subscription per customer.
- `EntitlementStore.Store` (store.dfy) holds the tables in place. It
  implements `saveOrder`, `updateSubscription`, the expiry sweep (a loop with
  per-record error containment) and the two read queries. Each method is
  proved to produce exactly the matching transition.
- `Webhook` (webhook.dfy) models the rest of the server:
  - signature verification over an abstract HMAC;
  - the two payload-to-record builders;
  - the `POST /api/webhooks/lemonsqueezy` handler: a pure `Handle` over the
    tables and the `WebhookServer.HandlePost` method that follows it.
  - Broadcasts are a list that `io.emit` appends to.

Client side:

- `UserStore` (user_store.dfy): the persisted preferences store. A class
  whose actions overwrite `preferences` with shallow merges.
- `AuthStore` (auth_store.dfy): the sign-in state. The identity provider's
  answers are parameters.
- `BillingSettings` (billing_settings.dfy): the snapshot transition for each
  pushed payment event, the snapshot derived from the user's paid orders on
  load, and the payment history the settings page keeps.
- The decisions drawn from that state, all pure:
  - the premium gate (`SubscriptionGuard`);
  - the route table (`AppRoutes`);
  - the plan card labels (`SubscriptionCard`);
  - the payment-history rows (`BillingHistory`), with their title-cased
    event labels.

Conventions:

- Times are integer milliseconds.
- "One month later" is a fixed 30-day offset (`Common.MonthMillis`).
- Store and network failures are injected as boolean or set parameters,
  which stand for the error a Supabase call returns.
- JavaScript's `a || 'default'` on an optional string is `Common.OrElse`:
  both an absent and an empty string take the default.

Two behaviours of the code are worth stating outright:

- The server does not map subscription events by kind.
  `processSubscriptionData` copies the provider's `status` verbatim, and
  every `subscription_*` event upserts that record, `subscription_expired`
  included (`Webhook.InactiveSubscriptionUpserted`). Only the client's
  `handlePaymentEvent` maps events by kind: created→active,
  cancelled→canceled, expired→cleared (`BillingSettings.SnapshotTransitions`).
- The sweep's query uses `lte`, so a subscription whose `expires_at` equals
  `now` is swept: the model sweeps `expires_at <= now`.

## Model

| member | source | states |
|---|---|---|
| StoreTables.SaveOrderOn | src/server/database.js:13-42 | `saveOrder` as a transition: the subscriptions table is never touched; it throws iff the insert fails and no stored order has that `order_id`, and then changes nothing; otherwise it returns a stored row with that `order_id` |
| StoreTables.SaveOrderExisting | src/server/database.js:15-24 | saving an order whose `order_id` is already stored returns the stored row and leaves both tables unchanged |
| StoreTables.SaveOrderNew | src/server/database.js:26-41 | a new `order_id` appends exactly one row (the input plus `expires_at` = now + one month) and returns it; earlier rows and the subscriptions table are unchanged |
| StoreTables.SaveOrderIdempotent | src/server/database.js:13-42 | saving the same order again, at any time and whatever the insert would do, returns what the first save returned and changes nothing |
| StoreTables.SaveOrderPreservesValid | src/server/database.js:13-42 | `saveOrder` keeps the table invariant |
| StoreTables.UpsertOn | src/server/database.js:44-75 | `updateSubscription` as a transition: the orders table is never touched; a thrown upsert changes nothing; the returned row is stored; when anything was written, the returned row has the record's id and status |
| StoreTables.Stamped | src/server/database.js:61-66 | only `expires_at` may change: an `active` record gets now + one month, any other record is written as sent |
| StoreTables.UpsertById | src/server/database.js:68-71 | the upserted row is in the table, which keeps its length or gains that one row at the end; every row with another id keeps its position |
| StoreTables.ConflictIsUnique | src/server/database.js:47-53 | under the invariant at most one row matches the conflict query (same customer, `active`, other id), so `.single()` finds it whenever one exists |
| StoreTables.FirstActiveWins | src/server/database.js:46-58 | activating a subscription for a customer who already has another active one returns that one and changes nothing |
| StoreTables.UpsertByIdEffect | src/server/database.js:68-71 | the upsert replaces the row with the same `id` in place, or appends the record when there is none; every other row is untouched |
| StoreTables.UpsertProceeds | src/server/database.js:62-74 | an upsert that goes ahead returns the stored record: `expires_at` is now + one month when `active`, and the record is stored exactly as sent otherwise; the orders table is unchanged |
| StoreTables.UpsertPreservesValid | src/server/database.js:44-75 | `updateSubscription` keeps the invariant, including at most one `active` subscription per customer |
| StoreTables.StaleRows | src/server/database.js:81-85 | the sweep query returns rows of the table that are `active` with `expires_at <= now`, and every such row |
| StoreTables.DropLinked | src/server/database.js:99-105 | the delete keeps exactly the orders not linked to a given subscription id |
| StoreTables.ExpireOne | src/server/database.js:90-109 | one iteration: a failed update leaves the tables as they were; the table length and row counter never change and no order is added |
| StoreTables.ExpireAll | src/server/database.js:89-110 | the loop never changes the subscriptions table's length or the row counter and never adds an order (its row-by-row result is `ExpireAllEffect`) |
| StoreTables.SweepOn | src/server/database.js:77-111 | `handleSubscriptionExpiry` as a transition: it throws iff the query fails; otherwise the subscriptions table keeps its length, the row counter is unchanged and orders can only disappear; that only statuses change, and which rows expire, is stated by `SweepEffect` |
| StoreTables.ExpireIds | src/server/database.js:92-95 | the status update marks exactly the rows with the given ids `expired` and keeps every other row and the table's length |
| StoreTables.ExpireAllEffect | src/server/database.js:89-110 | handling the selected rows one at a time, with a failure on one record caught and the loop going on, expires every row whose update succeeded and deletes the orders of every row whose delete also succeeded |
| StoreTables.StaleIds | src/server/database.js:81-85 | the sweep query selects a subscription iff it is `active` and `expires_at <= now` |
| StoreTables.SweepEffect | src/server/database.js:78-105 | after a sweep, each stale subscription whose update did not fail is `expired` and every other subscription is unchanged; exactly the orders linked to a swept subscription are gone |
| StoreTables.SweepLeavesNoStaleActive | src/server/database.js:78-105 | with no store error, no `active` subscription with `expires_at <= now` remains |
| StoreTables.SweepOrders | src/server/database.js:99-105 | an order survives the sweep iff it was stored and is not linked to a swept subscription |
| StoreTables.SweepPreservesValid | src/server/database.js:77-111 | the sweep keeps the table invariant |
| StoreTables.SweepIdempotent | src/server/database.js:77-111 | a second sweep with the same `now` changes nothing |
| StoreTables.ActiveSubscriptionFor | src/server/database.js:113-123 | the lookup returns an `active` row of the customer, and nothing only when the customer has none |
| StoreTables.ActiveSubscriptionForIsTheOne | src/server/database.js:113-123 | the lookup returns the customer's active subscription when there is one (the only one, by the invariant) and nothing otherwise |
| StoreTables.SortByCreatedDesc | src/server/database.js:130 | `.order('created_at', { ascending: false })`: the result is newest first and holds the same rows |
| StoreTables.InsertByCreatedDesc | src/server/database.js:130 | inserting into a list sorted newest first keeps it sorted and adds exactly that row |
| StoreTables.OrderHistory | src/server/database.js:125-134 | the history is the customer's orders and only those, each kept once (same multiset), newest `created_at` first |
| EntitlementStore.Store.SaveOrder | src/server/database.js:13-42 | the tables and the result are those of the `saveOrder` transition; the invariant is kept |
| EntitlementStore.Store.UpdateSubscription | src/server/database.js:44-75 | the tables and the result are those of the `updateSubscription` transition; the invariant is kept |
| EntitlementStore.Store.HandleSubscriptionExpiry | src/server/database.js:77-111 | a failed query throws with nothing changed; otherwise the loop leaves the tables equal to the sweep transition, and the invariant is kept |
| EntitlementStore.Store.GetActiveSubscription | src/server/database.js:113-123 | a failed query is an error; otherwise the result is the customer's unique active subscription, or none (no row is not an error) |
| EntitlementStore.Store.GetOrderHistory | src/server/database.js:125-134 | a failed query is an error; otherwise all of the customer's orders, newest first |
| Webhook.VerifyWebhookSignature | src/server/webhook.js:27-31 | a request is accepted iff its signature equals the hex HMAC of the payload under the secret |
| Webhook.AlteredPayloadRejected | src/server/webhook.js:27-31 | a payload whose HMAC differs from the signed one is rejected under the same signature |
| Webhook.ProcessOrderData | src/server/webhook.js:34-51 | the order record copies the id, order number, email, name, total, currency, status, test mode, `created_at` and subscription id, and is not processed; the product and variant names are the order item's when present and non-empty, and `Unknown Product` / `Default Variant` otherwise |
| Webhook.ProcessSubscriptionData | src/server/webhook.js:54-71 | the subscription record copies the id, the provider's status verbatim, the customer, product and variant ids, `renews_at`, `ends_at` and `created_at`; `updated_at` is now and `expires_at` now + one month |
| Webhook.Handle | src/server/webhook.js:83-141 | the answer is 200, 401 or 500; a bad signature answers 401 and an unparsable body 500, both with no change; a 500 writes and emits nothing; at most one event goes out; only an order or subscription event writes or broadcasts |
| Webhook.BadSignatureRejected | src/server/webhook.js:89-92 | a bad signature answers 401 `Invalid signature`, with no store change and no broadcast |
| Webhook.HandleResponses | src/server/webhook.js:83-141 | the answer is 200, 401 or 500; a 500 changes nothing and broadcasts nothing; 401 iff the signature fails; at most one event goes out |
| Webhook.PaidOrderStoredAndBroadcast | src/server/webhook.js:99-112 | a paid `order_created` leaves exactly one stored order with that id and broadcasts it once |
| Webhook.UnpaidOrderDropped | src/server/webhook.js:99-112 | an `order_created` that is not `paid` is acknowledged with no store change and no broadcast |
| Webhook.OrderRedeliveryIdempotent | src/server/webhook.js:99-112 | delivering the same `order_created` again changes no table and repeats the same answer and broadcast |
| Webhook.SubscriptionEventsShareOnePath | src/server/webhook.js:115-130 | the four `subscription_*` events have the same effect on the store and the answer; only the broadcast `type` differs |
| Webhook.InactiveSubscriptionUpserted | src/server/webhook.js:115-130 | a subscription event whose status is not `active`, `subscription_expired` included, upserts the record with that status instead of deleting it, and broadcasts it |
| Webhook.SecondActivationRefused | src/server/webhook.js:115-130 | an activation for a customer who already has another active subscription changes nothing and broadcasts the existing one |
| Webhook.UnknownEventAcknowledged | src/server/webhook.js:132-136 | an unrecognised event name answers 200 `{received: true}` and changes nothing |
| Webhook.HandlePreservesValid | src/server/webhook.js:83-141 | every request keeps the table invariant |
| Webhook.WebhookServer.HandlePost | src/server/webhook.js:83-141 | the store, the answer and the broadcasts appended are those of `Handle` on the verified, parsed request |
| UserStore.Merge | src/store/userStore.ts:68-71 | `{...preferences, ...patch}`: no keys leaves the preferences as they were, and each field is either the passed value or the old one |
| UserStore.MergeFields | src/store/userStore.ts:68-71 | `setPreferences` is a shallow merge: for each of the six keys, a key that is passed replaces its field, and a key that is not keeps it |
| UserStore.MergeAlgebra | src/store/userStore.ts:68-71 | merging no keys is the identity, merging the same patch twice is merging it once, and two merges are one merge of the combined patch |
| UserStore.CompleteOnboardingIsMerge | src/store/userStore.ts:72-75 | `completeOnboarding` is `setPreferences({onboardingCompleted: true})` and is idempotent |
| UserStore.UpdateSubscriptionIsMerge | src/store/userStore.ts:92-98 | `updateSubscription(s)` is `setPreferences({subscription: s})`, with `undefined` as well |
| UserStore.WithoutCompetitor | src/store/userStore.ts:80-82 | the filter keeps no competitor with that id and keeps every other competitor |
| UserStore.MergeProfile | src/store/userStore.ts:89 | `{...profile, ...patch}`: each passed key replaces its field and each missing key keeps it |
| UserStore.WithoutCompetitorEffect | src/store/userStore.ts:76-84 | removal drops exactly the competitors with that id, keeps the others in their order, and changes nothing when the id is absent |
| UserStore.WithoutCompetitorIdempotent | src/store/userStore.ts:76-84 | removing the same id twice is removing it once |
| UserStore.PreferencesStore.constructor | src/store/userStore.ts:45-52 | the store starts from the initial preferences |
| UserStore.PreferencesStore.SetPreferences | src/store/userStore.ts:68-71 | the new preferences are the merge of the old ones with the patch |
| UserStore.PreferencesStore.CompleteOnboarding | src/store/userStore.ts:72-75 | only `onboardingCompleted` changes, to true |
| UserStore.PreferencesStore.RemoveCompetitor | src/store/userStore.ts:76-84 | only `competitors` changes, to the filtered list |
| UserStore.PreferencesStore.UpdateProfile | src/store/userStore.ts:85-91 | only `profile` changes, to the merge of the old profile with the patch |
| UserStore.PreferencesStore.UpdateSubscription | src/store/userStore.ts:92-98 | only `subscription` changes, to the argument (absent included) |
| UserStore.PreferencesStore.ResetStore | src/store/userStore.ts:99 | the preferences return to the initial state: empty lists, onboarding not completed, default profile, no subscription |
| AuthStore.SessionUserOf | src/store/authStore.ts:91-95 | the user derived from a session takes its id and email, and uses the email as the username |
| AuthStore.AuthStore.constructor | src/store/authStore.ts:24-26 | no user, no session, not loading |
| AuthStore.AuthStore.SetSession | src/store/authStore.ts:85-99 | a session sets the session and the user derived from it; no session clears both; loading ends either way |
| AuthStore.AuthStore.SignOut | src/store/authStore.ts:81-84 | user and session are cleared and loading ends |
| AuthStore.AuthStore.SignIn | src/store/authStore.ts:27-48 | a provider error throws with no change; a returned session stores it with the profile row read for it; no session changes nothing |
| AuthStore.AuthStore.SignUp | src/store/authStore.ts:49-80 | an auth or profile-insert error throws with no change; a new account sets the user from its id and the given email and username |
| SubscriptionGuard.Guard | src/components/Auth/SubscriptionGuard.tsx:13-40 | the children render iff a subscription is present and `active`; otherwise an upgrade prompt linking to `/settings` |
| SubscriptionGuard.GuardDenies | src/components/Auth/SubscriptionGuard.tsx:13-15 | no subscription, `canceled` and `expired` are all denied |
| SubscriptionGuard.GuardReadsOnlyStatus | src/components/Auth/SubscriptionGuard.tsx:13 | the decision depends on the status alone, not on id, plan, renewal date or any other preference |
| SubscriptionCard.Render | src/components/Settings/SubscriptionCard.tsx:9-73 | heading is the plan or `Free Plan`; the badge is `Active` iff active, else the status or `Inactive` with no subscription; the dated lines appear iff there is a renewal date (`Renews` iff active, then `Expires` one month later); the cancel notice shows iff `canceled` |
| SubscriptionCard.CardAgreesWithGuard | src/components/Settings/SubscriptionCard.tsx:10 | the card shows the Active badge exactly when the premium gate lets the user through |
| BillingHistory.UpperAscii | src/components/Settings/BillingHistory.tsx:54 | `toUpperCase` on a `\w` character: the result is a word character iff the input is, is never lower case, and is the input when that is not lower case |
| BillingHistory.Spaced | src/components/Settings/BillingHistory.tsx:54 | `.replace(/_/g, ' ')`: same length, every underscore becomes a space, every other character unchanged |
| BillingHistory.CapitalizeWords | src/components/Settings/BillingHistory.tsx:54 | `.replace(/\b\w/g, …)` keeps the length (its effect is stated by `CapitalizeWordsEffect`) |
| BillingHistory.CapitalizeWordsEffect | src/components/Settings/BillingHistory.tsx:54 | title-casing replaces each character that starts a word by its upper-case form, leaves every other character as it was, and keeps the word boundaries |
| BillingHistory.CapitalizeWordsIdempotent | src/components/Settings/BillingHistory.tsx:54 | title-casing twice is title-casing once |
| BillingHistory.TypeLabel | src/components/Settings/BillingHistory.tsx:54 | an absent or empty type gives `Payment`; any other is spaced and title-cased |
| BillingHistory.TypeLabelShape | src/components/Settings/BillingHistory.tsx:54 | a label keeps the type's length and has no underscore: each underscore is a space, each word start is the type's character upper-cased, and every other character is the type's own |
| BillingHistory.TypeLabelIdempotent | src/components/Settings/BillingHistory.tsx:54 | the label of a label is itself |
| BillingHistory.TypeLabelExample | src/components/Settings/BillingHistory.tsx:54 | `subscription_created` is shown as `Subscription Created` |
| BillingHistory.ProjectRow | src/components/Settings/BillingHistory.tsx:51-73 | status defaults to `unknown`, product to `Unknown Product`, a missing date to `N/A`; the green badge iff status is `paid` |
| BillingHistory.Render | src/components/Settings/BillingHistory.tsx:10-50 | a non-array or empty list shows no table; otherwise one row per payment, in input order |
| BillingSettings.PlanOf | src/components/Settings/BillingSettings.tsx:99 | the plan is the product name, or `Premium Plan` when it is absent or empty |
| BillingSettings.ForOtherUser | src/components/Settings/BillingSettings.tsx:89-92 | a user without an email, or an event naming the user, is never filtered out |
| BillingSettings.SetterArgument | src/components/Settings/BillingSettings.tsx:94-143 | the setter is passed nothing iff the event is an expiry; otherwise a snapshot with the event's id and plan, `canceled` iff the event is a cancellation, never `expired` |
| BillingSettings.NextSnapshot | src/components/Settings/BillingSettings.tsx:85-144 | the snapshot changes only for an event of this user that calls the setter, and then takes the event's id and plan; it is cleared only by an expiry |
| BillingSettings.SnapshotTransitions | src/components/Settings/BillingSettings.tsx:85-144 | events for another user leave the snapshot unchanged; a paid order and an `active` creation set an active snapshot; an update always does; a cancellation sets `canceled` until `ends_at`; an expiry clears it; anything else changes nothing |
| BillingSettings.EventsAndTheGate | src/components/Settings/BillingSettings.tsx:85-144 | after an event that sets the snapshot, the gate is open iff it was an order, creation or update; any other event leaves the gate as it was |
| BillingSettings.PaidOrders | src/components/Settings/BillingSettings.tsx:28-33 | the load query yields the user's paid orders, each once, newest first |
| BillingSettings.SnapshotOf | src/components/Settings/BillingSettings.tsx:54-60 | the loaded snapshot is active, with the order's product as plan, its date as renewal date, and its subscription id when it has one |
| BillingSettings.SnapshotIdNamesTheRow | src/components/Settings/BillingSettings.tsx:56 | without a subscription id, the snapshot id is the row id in decimal digits, and it reads back as that id |
| BillingSettings.LoadedSnapshot | src/components/Settings/BillingSettings.tsx:53-61 | with no paid orders the snapshot is kept; otherwise it is active, with the first order's product as plan and its date as renewal date |
| BillingSettings.LoadTakesLatestPaidOrder | src/components/Settings/BillingSettings.tsx:53-61 | with paid orders, the snapshot comes from one of the user's paid orders at least as recent as all the others, and it opens the gate; with none, nothing changes |
| BillingSettings.OrderEntry | src/components/Settings/BillingSettings.tsx:36-49 | the entry carries the order's id; its row shows `Payment`, the order's date, status and product (`Unknown Product` when empty), and the paid badge iff the order is paid |
| BillingSettings.FormattedOrders | src/components/Settings/BillingSettings.tsx:36-49 | one entry per paid order, in order: entry i has no top-level `type` and carries order i's id, status, `created_at` and product name |
| BillingSettings.LoadedHistoryRows | src/components/Settings/BillingSettings.tsx:36-50 | the loaded history shows one `Payment` row per paid order, newest first, each with the paid badge, the order's date and its product (`Unknown Product` when empty) |
| BillingSettings.EventEntry | src/components/Settings/BillingSettings.tsx:74-78 | a pushed event's entry carries its id; its row shows `Payment`, the event's date, status and product (`Unknown Product` when absent or empty), and the paid badge iff its status is `paid` |
| BillingSettings.PrependShowsNewestFirst | src/components/Settings/BillingSettings.tsx:77 | a pushed event's row comes first and the earlier rows follow in their order |
| BillingSettings.BillingPanel.constructor | src/components/Settings/BillingSettings.tsx:12-17 | empty history, loading, no error |
| BillingSettings.BillingPanel.FetchData | src/components/Settings/BillingSettings.tsx:20-69 | a failed catalogue request sets the error; with a user email and a successful query the history becomes the paid orders and the snapshot the loaded one; loading always ends |
| BillingSettings.BillingPanel.OnPaymentEvent | src/components/Settings/BillingSettings.tsx:74-78 | the snapshot becomes the event's transition of the old one and the event goes on top of the history |
| AppRoutes.ProtectedRoute | src/App.tsx:18-32 | no user goes to `/auth/login` (remembering the path); a user with onboarding unfinished goes to `/onboarding` from any other path; otherwise the children render |
| AppRoutes.SubscriptionGuarded | src/App.tsx:103-105 | the wrapped page renders with an active subscription, and the upgrade prompt linking to `/settings` otherwise |
| AppRoutes.Route | src/App.tsx:54-148 | every protected path and `/onboarding` is wrapped in the auth guard; a path with no route renders nothing; only `/content-ideas` can show the upgrade prompt |
| AppRoutes.PublicRoutes | src/App.tsx:56-67 | the login and register forms send a signed-in user to `/dashboard` and show the form otherwise |
| AppRoutes.RootRedirect | src/App.tsx:142-147 | `/` goes to `/dashboard` iff a user is signed in, otherwise to `/auth/login` |
| AppRoutes.ProtectedPathsRedirect | src/App.tsx:78-139 | every protected path is wrapped in the auth guard and redirects to login without a user and to onboarding before onboarding is done |
| AppRoutes.SignedOutReachesNoProtectedPage | src/App.tsx:54-148 | with no user, no path renders a page other than the two forms and the guarded onboarding flow |
| AppRoutes.OnlyContentIdeasIsPremium | src/App.tsx:78-139 | every path other than `/content-ideas` renders the same whatever the subscription snapshot |
| AppRoutes.ContentIdeasGate | src/App.tsx:98-109 | a signed-in, onboarded user reaches Content Ideas iff the premium gate allows it, and sees the upgrade prompt otherwise |
| Common.OrElse | src/server/webhook.js:46-47 | JavaScript's or-default on an optional string: the value when present and non-empty, the fallback otherwise |
| Common.NatToString | src/components/Settings/BillingSettings.tsx:56 | `String(n)` on a row id: a non-empty string of decimal digits (read back by `NatToStringRoundTrip`) |
| Common.NatToStringRoundTrip | src/components/Settings/BillingSettings.tsx:56 | the decimal string of a row id reads back as that id |
| Common.FirstMatch | src/server/database.js:15-19 | the lookup behind `.single()`: the index of the first matching row, or none when no row matches |
| Common.Where | src/store/userStore.ts:80-82 | `filter`: no more elements than the input, each from the input and passing the test, and every passing element kept |

## Left out

- HMAC-SHA256 and hex encoding are an uninterpreted function parameter. The comparison is plain string equality, as in the source, which is not constant-time.
- `JSON.parse` and the destructuring of the event are a parameter. `Handle`'s `event` is `None` for a body on which the handler throws: text that is not JSON, JSON without `meta`, or an `order_created` or `subscription_*` event without `data` or `data.attributes` (a TypeError in the source). Each of these answers 500. The handler reads `data` only for those event names, so an unrecognised event name is `Some` with any `data` and answers 200 (`Webhook.UnknownEventAcknowledged`).
- Express, body-parser, CORS, the socket.io server and `listen` are transport and are left out. `io.emit` is appending to `WebhookServer.broadcasts`.
- The hourly `setInterval` timer is left out. The sweep is called with an explicit `now`.
- The Supabase client is replaced by in-memory tables.
  - Each write's error is an injected failure flag.
  - The existence checks in `saveOrder` and `updateSubscription` are taken to succeed. In the source an error there is read as "no row" and the write goes ahead; the model has no flag for it.
- `.single()` is modelled as "first match". `StoreTables.ConflictIsUnique` and `StoreTables.ActiveSubscriptionForIsTheOne` show that under the invariant there is at most one match, which is the only case in which the source's `.single()` returns a row.
- Dates are integers. `setMonth(+1)` is a fixed 30-day offset, with no month-length or overflow behaviour. ISO strings are not formatted, and `toLocaleDateString` is the `LocaleDate` cell.
- `processSubscriptionData` and `updateSubscription` each read the clock, and the order insert reads it again. One `now` stands for all of these readings.
- The compare-then-act race in `updateSubscription` and any interleaving of requests are left out; the model is sequential.
- The server broadcasts `{type, order|subscription}`, while the client reads `event.meta` and `event.data`. Each side is modelled as written (`Webhook.PaymentEvent` and `WebhookTypes.WebhookEvent`), and the two are not connected.
- src/services/lemonsqueezy.ts is not part of this model. It covers the product catalogue request, the socket subscription and its own signature check keyed by the webhook URL. `FetchData` takes the catalogue request's failure as a flag and does not keep the products.
- src/server/config.js (environment loading) is not part of this model; the webhook secret is a constructor argument.
- React rendering, toasts, CSS classes other than the paid badge, the row `key`, and the `persist` middleware's local storage are left out.
- src/components/Auth/AuthGuard.tsx is not part of this model; `AppRoutes.AuthGuarded` only marks where it wraps a route.
- `AppRoutes.Route`: `path` is the route key after React Router's matching, which ignores letter case and trailing slashes. `/Content-Ideas/` reaches the `/content-ideas` route in the source. The model compares keys exactly, so `AppRoutes.OnlyContentIdeasIsPremium` and the other route lemmas are about route keys, not raw URLs.
- The `users` table read after sign-in and the insert after sign-up are provider answers passed to `AuthStore`: `SignInReply.profile` and `profileInsertFails`.
- `UserStore.Merge`: a key passed explicitly as `undefined` for a required field (possible with `Partial`) is not modelled. Only the optional `subscription` and `avatar` take an explicit `undefined`.
- `BillingHistory.ProjectRow`: the entry's loose shape is reduced to the fields the table reads. A date string that `Date` cannot parse is not modelled; it would show as an invalid date rather than `N/A`.
- `SubscriptionCard.Render`: a present but empty `renewalDate` string is treated as absent, since dates are instants.
- `BillingSettings.BillingPanel.FetchData`: the effect re-running when `user` changes, and the unsubscribe on unmount, are left out.
