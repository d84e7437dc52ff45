/** The persisted user-preferences store of src/store/userStore.ts. Its one
    field, `preferences`, is overwritten by every action with a value built
    by shallow spreads and a filter; those values are the functions below,
    and `PreferencesStore` is the store holding them. */
module UserStore {
  import opened Common

  datatype UserProfile = UserProfile(displayName: string, email: string, timezone: string, avatar: Option<string>)

  datatype Platform = YouTube | Blog

  datatype Metrics = Metrics(followers: int, engagement: real, posts: int)

  datatype Competitor = Competitor(id: string, name: string, platform: Platform, profileUrl: string, metrics: Metrics)

  datatype SubscriptionStatus = Active | Canceled | Expired

  /** The client's entitlement snapshot. */
  datatype Subscription = Subscription(id: string, plan: string, status: SubscriptionStatus, renewalDate: Option<Time>)

  datatype UserPreferences = UserPreferences(
    contentType: seq<string>,
    keywords: seq<string>,
    competitors: seq<Competitor>,
    onboardingCompleted: bool,
    profile: UserProfile,
    subscription: Option<Subscription>)

  const DefaultProfile := UserProfile("", "", "(GMT-08:00) Pacific Time", None)

  const InitialState := UserPreferences([], [], [], false, DefaultProfile, None)

  /** `Partial<UserPreferences>`: `Some` for each key the caller passes. For
      the optional `subscription`, `Some(None)` is a key passed as `undefined`. */
  datatype PreferencesPatch = PreferencesPatch(
    contentType: Option<seq<string>>,
    keywords: Option<seq<string>>,
    competitors: Option<seq<Competitor>>,
    onboardingCompleted: Option<bool>,
    profile: Option<UserProfile>,
    subscription: Option<Option<Subscription>>)

  const EmptyPatch := PreferencesPatch(None, None, None, None, None, None)

  /** `Partial<UserProfile>`. */
  datatype ProfilePatch = ProfilePatch(
    displayName: Option<string>,
    email: Option<string>,
    timezone: Option<string>,
    avatar: Option<Option<string>>)

  /** `{ ...p, ...patch }`: no keys leaves the preferences as they were, and
      each field of the result is either the passed value or the old one. */
  function Merge(p: UserPreferences, patch: PreferencesPatch): (r: UserPreferences)
    ensures patch == EmptyPatch ==> r == p
    ensures r.contentType == p.contentType || patch.contentType == Some(r.contentType)
    ensures r.keywords == p.keywords || patch.keywords == Some(r.keywords)
    ensures r.competitors == p.competitors || patch.competitors == Some(r.competitors)
    ensures r.onboardingCompleted == p.onboardingCompleted || patch.onboardingCompleted == Some(r.onboardingCompleted)
    ensures r.profile == p.profile || patch.profile == Some(r.profile)
    ensures r.subscription == p.subscription || patch.subscription == Some(r.subscription)
  {
    UserPreferences(
      patch.contentType.GetOr(p.contentType),
      patch.keywords.GetOr(p.keywords),
      patch.competitors.GetOr(p.competitors),
      patch.onboardingCompleted.GetOr(p.onboardingCompleted),
      patch.profile.GetOr(p.profile),
      patch.subscription.GetOr(p.subscription))
  }

  /** `{ ...p, ...patch }` on the profile: a passed key replaces its field and
      a missing key keeps it. */
  function MergeProfile(p: UserProfile, patch: ProfilePatch): (r: UserProfile)
    ensures patch.displayName.Some? ==> r.displayName == patch.displayName.value
    ensures patch.displayName.None? ==> r.displayName == p.displayName
    ensures patch.email.Some? ==> r.email == patch.email.value
    ensures patch.email.None? ==> r.email == p.email
    ensures patch.timezone.Some? ==> r.timezone == patch.timezone.value
    ensures patch.timezone.None? ==> r.timezone == p.timezone
    ensures patch.avatar.Some? ==> r.avatar == patch.avatar.value
    ensures patch.avatar.None? ==> r.avatar == p.avatar
  {
    UserProfile(
      patch.displayName.GetOr(p.displayName),
      patch.email.GetOr(p.email),
      patch.timezone.GetOr(p.timezone),
      patch.avatar.GetOr(p.avatar))
  }

  /** Applying `first` then `second` is applying this one patch (keys of `second` win). */
  function Then(first: PreferencesPatch, second: PreferencesPatch): PreferencesPatch {
    PreferencesPatch(
      if second.contentType.Some? then second.contentType else first.contentType,
      if second.keywords.Some? then second.keywords else first.keywords,
      if second.competitors.Some? then second.competitors else first.competitors,
      if second.onboardingCompleted.Some? then second.onboardingCompleted else first.onboardingCompleted,
      if second.profile.Some? then second.profile else first.profile,
      if second.subscription.Some? then second.subscription else first.subscription)
  }

  /** The shallow merge: a key that is passed replaces the field, a key that is not keeps it. */
  lemma MergeFields(p: UserPreferences, patch: PreferencesPatch)
    ensures var r := Merge(p, patch);
      && (patch.contentType.Some? ==> r.contentType == patch.contentType.value)
      && (patch.contentType.None? ==> r.contentType == p.contentType)
      && (patch.competitors.Some? ==> r.competitors == patch.competitors.value)
      && (patch.competitors.None? ==> r.competitors == p.competitors)
      && (patch.subscription.Some? ==> r.subscription == patch.subscription.value)
      && (patch.subscription.None? ==> r.subscription == p.subscription)
      && (patch.keywords.Some? ==> r.keywords == patch.keywords.value)
      && (patch.keywords.None? ==> r.keywords == p.keywords)
      && (patch.onboardingCompleted.Some? ==> r.onboardingCompleted == patch.onboardingCompleted.value)
      && (patch.onboardingCompleted.None? ==> r.onboardingCompleted == p.onboardingCompleted)
      && (patch.profile.Some? ==> r.profile == patch.profile.value)
      && (patch.profile.None? ==> r.profile == p.profile)
  {
  }

  /** Merging no keys changes nothing; merging the same patch twice is merging it once;
      two merges in a row are one merge of the combined patch. */
  lemma MergeAlgebra(p: UserPreferences, q1: PreferencesPatch, q2: PreferencesPatch)
    ensures Merge(p, EmptyPatch) == p
    ensures Merge(Merge(p, q1), q1) == Merge(p, q1)
    ensures Merge(Merge(p, q1), q2) == Merge(p, Then(q1, q2))
  {
  }

  /** `completeOnboarding()` is `setPreferences({ onboardingCompleted: true })`, and doing it twice is doing it once. */
  lemma CompleteOnboardingIsMerge(p: UserPreferences)
    ensures p.(onboardingCompleted := true) == Merge(p, EmptyPatch.(onboardingCompleted := Some(true)))
    ensures p.(onboardingCompleted := true).(onboardingCompleted := true) == p.(onboardingCompleted := true)
  {
  }

  /** `updateSubscription(s)` is `setPreferences({ subscription: s })`, `undefined` included. */
  lemma UpdateSubscriptionIsMerge(p: UserPreferences, s: Option<Subscription>)
    ensures p.(subscription := s) == Merge(p, EmptyPatch.(subscription := Some(s)))
  {
  }

  /** `competitors.filter(c => c.id !== id)`: the result holds no competitor
      with that id, and every other competitor of `cs`. */
  function WithoutCompetitor(cs: seq<Competitor>, id: string): (r: seq<Competitor>)
    ensures |r| <= |cs|
    ensures forall i :: 0 <= i < |r| ==> r[i] in cs && r[i].id != id
    ensures forall i :: 0 <= i < |cs| && cs[i].id != id ==> cs[i] in r
  {
    Where(cs, (c: Competitor) => c.id != id)
  }

  /** Exactly the competitors with that id go, the others stay in their relative order. */
  lemma {:induction false} WithoutCompetitorEffect(cs: seq<Competitor>, id: string, a: seq<Competitor>, b: seq<Competitor>)
    ensures forall i :: 0 <= i < |WithoutCompetitor(cs, id)| ==> WithoutCompetitor(cs, id)[i].id != id
    ensures forall i :: 0 <= i < |cs| && cs[i].id != id ==> cs[i] in WithoutCompetitor(cs, id)
    ensures WithoutCompetitor(a + b, id) == WithoutCompetitor(a, id) + WithoutCompetitor(b, id)
    ensures (forall i :: 0 <= i < |cs| ==> cs[i].id != id) ==> WithoutCompetitor(cs, id) == cs
  {
    WhereConcat(a, b, (c: Competitor) => c.id != id);
    if forall i :: 0 <= i < |cs| ==> cs[i].id != id {
      WhereAll(cs, (c: Competitor) => c.id != id);
    }
  }

  /** Removing the same id twice is removing it once. */
  lemma WithoutCompetitorIdempotent(cs: seq<Competitor>, id: string)
    ensures WithoutCompetitor(WithoutCompetitor(cs, id), id) == WithoutCompetitor(cs, id)
  {
    var once := WithoutCompetitor(cs, id);
    WhereAll(once, (c: Competitor) => c.id != id);
  }

  /** The `useUserStore` state container. */
  class PreferencesStore {
    var preferences: UserPreferences

    constructor ()
      ensures preferences == InitialState
    {
      preferences := InitialState;
    }

    method SetPreferences(patch: PreferencesPatch)
      modifies this
      ensures preferences == Merge(old(preferences), patch)
    {
      preferences := Merge(preferences, patch);
    }

    method CompleteOnboarding()
      modifies this
      ensures preferences == old(preferences).(onboardingCompleted := true)
    {
      preferences := preferences.(onboardingCompleted := true);
    }

    method RemoveCompetitor(competitorId: string)
      modifies this
      ensures preferences == old(preferences).(competitors := WithoutCompetitor(old(preferences).competitors, competitorId))
    {
      preferences := preferences.(competitors := WithoutCompetitor(preferences.competitors, competitorId));
    }

    method UpdateProfile(patch: ProfilePatch)
      modifies this
      ensures preferences == old(preferences).(profile := MergeProfile(old(preferences).profile, patch))
    {
      preferences := preferences.(profile := MergeProfile(preferences.profile, patch));
    }

    method UpdateSubscription(subscription: Option<Subscription>)
      modifies this
      ensures preferences == old(preferences).(subscription := subscription)
    {
      preferences := preferences.(subscription := subscription);
    }

    method ResetStore()
      modifies this
      ensures preferences == InitialState
      ensures preferences.competitors == [] && !preferences.onboardingCompleted && preferences.subscription.None?
    {
      preferences := InitialState;
    }
  }
}
