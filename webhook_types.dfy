/** The billing provider's event envelope `{ meta: { event_name }, data: { id,
    type, attributes } }`, in the shape both the server and the client read it.
    Attributes the provider sends only for some event kinds are optional. */
module WebhookTypes {
  import opened Common

  /** `attributes.first_order_item`: only order events carry it. */
  datatype OrderItem = OrderItem(productName: Option<string>, variantName: Option<string>)

  datatype Attributes = Attributes(
    orderNumber: string,
    userEmail: string,
    userName: string,
    total: int,
    currency: string,
    status: string,
    testMode: bool,
    createdAt: Time,
    firstOrderItem: Option<OrderItem>,
    subscriptionId: Option<string>,
    customerId: Option<string>,
    productId: Option<string>,
    variantId: Option<string>,
    renewsAt: Option<Time>,
    endsAt: Option<Time>)

  datatype EventData = EventData(id: string, kind: string, attributes: Attributes)

  datatype WebhookEvent = WebhookEvent(eventName: string, data: EventData)

  /** `attributes.first_order_item?.product_name` */
  function ItemProductName(a: Attributes): Option<string> {
    if a.firstOrderItem.Some? then a.firstOrderItem.value.productName else None
  }

  /** `attributes.first_order_item?.variant_name` */
  function ItemVariantName(a: Attributes): Option<string> {
    if a.firstOrderItem.Some? then a.firstOrderItem.value.variantName else None
  }

  const OrderCreated := "order_created"
  const SubscriptionCreated := "subscription_created"
  const SubscriptionUpdated := "subscription_updated"
  const SubscriptionCancelled := "subscription_cancelled"
  const SubscriptionExpired := "subscription_expired"

  predicate IsSubscriptionEvent(name: string) {
    name == SubscriptionCreated || name == SubscriptionUpdated
    || name == SubscriptionCancelled || name == SubscriptionExpired
  }
}
