/** The premium gate of src/components/Auth/SubscriptionGuard.tsx: the
    children are rendered only for an active subscription snapshot, and any
    other snapshot gets an upgrade prompt linking to the settings page. */
module SubscriptionGuard {
  import opened UserStore

  /** What the guard renders in place of its children. */
  datatype Gate = RenderChildren | UpgradePrompt(href: string)

  const SettingsPath := "/settings"

  /** `preferences.subscription?.status === 'active'` */
  predicate HasActiveSubscription(p: UserPreferences) {
    p.subscription.Some? && p.subscription.value.status == Active
  }

  function Guard(p: UserPreferences): (g: Gate)
    ensures g == RenderChildren <==> p.subscription.Some? && p.subscription.value.status == Active
    ensures g != RenderChildren ==> g == UpgradePrompt(SettingsPath)
  {
    if HasActiveSubscription(p) then RenderChildren else UpgradePrompt(SettingsPath)
  }

  /** No snapshot, a canceled one and an expired one are all denied. */
  lemma GuardDenies(p: UserPreferences)
    requires p.subscription.None? || p.subscription.value.status in {Canceled, Expired}
    ensures Guard(p) == UpgradePrompt(SettingsPath)
  {
  }

  /** The decision reads the status and nothing else: two preference values
      whose snapshots agree on it (or both lack one) are treated alike,
      whatever their ids, plans, renewal dates and other fields. */
  lemma GuardReadsOnlyStatus(p: UserPreferences, q: UserPreferences)
    requires p.subscription.Some? <==> q.subscription.Some?
    requires p.subscription.Some? ==> p.subscription.value.status == q.subscription.value.status
    ensures Guard(p) == Guard(q)
  {
  }
}
