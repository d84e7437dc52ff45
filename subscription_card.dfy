/** The labels of src/components/Settings/SubscriptionCard.tsx, derived from
    the optional subscription snapshot. Dates are kept as instants; their
    locale formatting is not part of this model. */
module SubscriptionCard {
  import opened Common
  import opened UserStore
  import SubscriptionGuard

  datatype Badge = ActiveBadge | StatusBadge(text: string)

  datatype DateLine = DateLine(caption: string, date: Time)

  datatype Card = Card(
    heading: string,
    badge: Badge,
    renewalLine: Option<DateLine>,
    expiryLine: Option<DateLine>,
    cancelNotice: bool)

  const FreePlan := "Free Plan"
  const Inactive := "Inactive"

  /** The status union's string values. */
  function StatusText(s: SubscriptionStatus): (r: string)
    ensures r != "" && r != Inactive
  {
    match s
    case Active => "active"
    case Canceled => "canceled"
    case Expired => "expired"
  }

  function Render(sub: Option<Subscription>): (c: Card)
    ensures sub.Some? && sub.value.plan != "" ==> c.heading == sub.value.plan
    ensures sub.None? || sub.value.plan == "" ==> c.heading == FreePlan
    ensures c.badge == ActiveBadge <==> sub.Some? && sub.value.status == Active
    ensures c.badge == StatusBadge(Inactive) <==> sub.None?
    ensures sub.Some? && sub.value.status != Active ==> c.badge == StatusBadge(StatusText(sub.value.status))
    ensures c.renewalLine.Some? <==> sub.Some? && sub.value.renewalDate.Some?
    ensures c.renewalLine.Some? ==>
      c.renewalLine.value.date == sub.value.renewalDate.value
      && (c.renewalLine.value.caption == "Renews" <==> sub.value.status == Active)
      && (c.renewalLine.value.caption != "Renews" ==> c.renewalLine.value.caption == "Expires")
    ensures c.expiryLine.Some? <==> c.renewalLine.Some?
    ensures c.expiryLine.Some? ==>
      c.expiryLine.value.caption == "Expires" && c.expiryLine.value.date == OneMonthAfter(c.renewalLine.value.date)
    ensures c.cancelNotice <==> sub.Some? && sub.value.status == Canceled
  {
    var isActive := sub.Some? && sub.value.status == Active;
    var renewalDate := if sub.Some? then sub.value.renewalDate else None;
    Card(
      OrElse(if sub.Some? then Some(sub.value.plan) else None, FreePlan),
      if isActive then ActiveBadge
      else StatusBadge(if sub.Some? then StatusText(sub.value.status) else Inactive),
      if renewalDate.Some? then Some(DateLine(if isActive then "Renews" else "Expires", renewalDate.value)) else None,
      if renewalDate.Some? then Some(DateLine("Expires", OneMonthAfter(renewalDate.value))) else None,
      sub.Some? && sub.value.status == Canceled)
  }

  /** The card shows the green Active badge exactly when the premium gate lets the user through. */
  lemma CardAgreesWithGuard(p: UserPreferences)
    ensures Render(p.subscription).badge == ActiveBadge <==> SubscriptionGuard.Guard(p) == SubscriptionGuard.RenderChildren
  {
  }
}
