/** The route table of src/App.tsx and its `ProtectedRoute` wrapper: what each
    path renders, given the signed-in user and the stored preferences. The
    `AuthGuard` wrapper (src/components/Auth/AuthGuard.tsx) is not part of
    this model; `AuthGuarded` records where it wraps a route. */
module AppRoutes {
  import opened Common
  import opened UserStore
  import AuthStore
  import SubscriptionGuard

  datatype Page = LoginForm | RegisterForm | OnboardingFlow | Dashboard | Competitors | ContentIdeas | Calendar | Trends | Settings

  datatype View =
    | Show(page: Page)
      /** A `<Navigate replace>`; `from` is the location passed along as `state.from`. */
    | Navigate(to: string, from: Option<string>)
    | AuthGuarded(inner: View)
    | UpgradePrompt(href: string)
    | NoMatch

  const LoginPath := "/auth/login"
  const RegisterPath := "/auth/register"
  const OnboardingPath := "/onboarding"
  const DashboardPath := "/dashboard"
  const CompetitorsPath := "/competitors"
  const ContentIdeasPath := "/content-ideas"
  const CalendarPath := "/calendar"
  const TrendsPath := "/trends"
  const RootPath := "/"

  /** The paths whose route is `<AuthGuard><ProtectedRoute>…</ProtectedRoute></AuthGuard>`. */
  const ProtectedPaths: set<string> :=
    {DashboardPath, CompetitorsPath, ContentIdeasPath, CalendarPath, TrendsPath, SubscriptionGuard.SettingsPath}

  function ProtectedRoute(user: Option<AuthStore.User>, p: UserPreferences, pathname: string, children: View): (v: View)
    ensures user.None? ==> v == Navigate(LoginPath, Some(pathname))
    ensures user.Some? && !p.onboardingCompleted && pathname != OnboardingPath ==> v == Navigate(OnboardingPath, None)
    ensures user.Some? && (p.onboardingCompleted || pathname == OnboardingPath) ==> v == children
  {
    if user.None? then Navigate(LoginPath, Some(pathname))
    else if !p.onboardingCompleted && pathname != OnboardingPath then Navigate(OnboardingPath, None)
    else children
  }

  /** `<SubscriptionGuard>{children}</SubscriptionGuard>`: the children with an
      active subscription, the upgrade prompt otherwise. */
  function SubscriptionGuarded(p: UserPreferences, children: View): (v: View)
    ensures SubscriptionGuard.HasActiveSubscription(p) ==> v == children
    ensures !SubscriptionGuard.HasActiveSubscription(p) ==> v == UpgradePrompt(SubscriptionGuard.SettingsPath)
  {
    match SubscriptionGuard.Guard(p)
    case RenderChildren => children
    case UpgradePrompt(href) => UpgradePrompt(href)
  }

  function Protected(user: Option<AuthStore.User>, p: UserPreferences, path: string, page: Page): View {
    AuthGuarded(ProtectedRoute(user, p, path, Show(page)))
  }

  /** The element `<Routes>` renders for the route key `path`: the protected
      paths are wrapped in `AuthGuard`, and a path with no route renders nothing. */
  function Route(path: string, user: Option<AuthStore.User>, p: UserPreferences): (v: View)
    ensures path in ProtectedPaths || path == OnboardingPath ==> v.AuthGuarded?
    ensures path !in ProtectedPaths && path !in {LoginPath, RegisterPath, OnboardingPath, RootPath} ==> v == NoMatch
    ensures v.UpgradePrompt? || (v.AuthGuarded? && v.inner.UpgradePrompt?) ==> path == ContentIdeasPath
  {
    if path == LoginPath then
      if user.Some? then Navigate(DashboardPath, None) else Show(LoginForm)
    else if path == RegisterPath then
      if user.Some? then Navigate(DashboardPath, None) else Show(RegisterForm)
    else if path == OnboardingPath then AuthGuarded(Show(OnboardingFlow))
    else if path == DashboardPath then Protected(user, p, path, Dashboard)
    else if path == CompetitorsPath then Protected(user, p, path, Competitors)
    else if path == ContentIdeasPath then
      AuthGuarded(ProtectedRoute(user, p, path, SubscriptionGuarded(p, Show(ContentIdeas))))
    else if path == CalendarPath then Protected(user, p, path, Calendar)
    else if path == TrendsPath then Protected(user, p, path, Trends)
    else if path == SubscriptionGuard.SettingsPath then Protected(user, p, path, Settings)
    else if path == RootPath then
      if user.Some? then Navigate(DashboardPath, None) else Navigate(LoginPath, None)
    else NoMatch
  }

  /** `v` ends in rendering `page`, through any number of `AuthGuard` wrappers. */
  predicate Reaches(v: View, page: Page) {
    match v
    case Show(q) => q == page
    case AuthGuarded(inner) => Reaches(inner, page)
    case _ => false
  }

  /** The two public forms send a signed-in user to the dashboard and show the form otherwise. */
  lemma PublicRoutes(user: Option<AuthStore.User>, p: UserPreferences)
    ensures Route(LoginPath, user, p) == (if user.Some? then Navigate(DashboardPath, None) else Show(LoginForm))
    ensures Route(RegisterPath, user, p) == (if user.Some? then Navigate(DashboardPath, None) else Show(RegisterForm))
  {
  }

  /** `/` goes to the dashboard exactly when a user is signed in, and to the login page otherwise. */
  lemma RootRedirect(user: Option<AuthStore.User>, p: UserPreferences)
    ensures Route(RootPath, user, p) == Navigate(if user.Some? then DashboardPath else LoginPath, None)
  {
  }

  /** Every protected path is wrapped in `AuthGuard`; inside it, no user means the
      login page (remembering the path), and an unfinished onboarding means the
      onboarding page. */
  lemma ProtectedPathsRedirect(path: string, user: Option<AuthStore.User>, p: UserPreferences)
    requires path in ProtectedPaths
    ensures Route(path, user, p).AuthGuarded?
    ensures user.None? ==> Route(path, user, p).inner == Navigate(LoginPath, Some(path))
    ensures user.Some? && !p.onboardingCompleted ==> Route(path, user, p).inner == Navigate(OnboardingPath, None)
  {
  }

  /** With no user, no route renders any page but the two public forms and the
      `AuthGuard`-wrapped onboarding flow. */
  lemma {:induction false} SignedOutReachesNoProtectedPage(path: string, p: UserPreferences, page: Page)
    requires page !in {LoginForm, RegisterForm, OnboardingFlow}
    ensures !Reaches(Route(path, None, p), page)
  {
    if path in ProtectedPaths {
      ProtectedPathsRedirect(path, None, p);
    }
  }

  /** Only `/content-ideas` looks at the subscription: every other path renders
      the same whatever the snapshot is. */
  lemma OnlyContentIdeasIsPremium(path: string, user: Option<AuthStore.User>, p: UserPreferences, s: Option<Subscription>)
    requires path != ContentIdeasPath
    ensures Route(path, user, p) == Route(path, user, p.(subscription := s))
  {
  }

  /** A signed-in, onboarded user sees Content Ideas exactly when the premium
      gate allows it, and the upgrade prompt otherwise. */
  lemma {:induction false} ContentIdeasGate(user: Option<AuthStore.User>, p: UserPreferences)
    requires user.Some? && p.onboardingCompleted
    ensures Reaches(Route(ContentIdeasPath, user, p), ContentIdeas) <==> SubscriptionGuard.HasActiveSubscription(p)
    ensures !SubscriptionGuard.HasActiveSubscription(p) ==>
      Route(ContentIdeasPath, user, p) == AuthGuarded(UpgradePrompt(SubscriptionGuard.SettingsPath))
  {
    var v := Route(ContentIdeasPath, user, p);
    assert v == AuthGuarded(SubscriptionGuarded(p, Show(ContentIdeas)));
  }
}
