/** The root view (`cordis/App/RootView.swift` and the earlier `cordis/RootView.swift`):
    the colour scheme chosen in the settings, the choice between the loading screen,
    onboarding and the main tabs, and the creation of the settings and streak records
    on first launch. All records of each kind are kept; the views read the first. */
module Root {
  import opened Wrappers
  import opened Records
  import opened Onboarding

  datatype Scheme = Light | Dark

  /** `preferredScheme`: 1 light, 2 dark, anything else (or no record) the system's. */
  function PreferredScheme(settings: Option<AppSettings>): (r: Option<Scheme>)
    ensures r == Some(Light) <==> settings.Some? && settings.value.themeMode == 1
    ensures r == Some(Dark) <==> settings.Some? && settings.value.themeMode == 2
  {
    match settings.GetOr(DefaultSettings).themeMode
    case 1 => Some(Light)
    case 2 => Some(Dark)
    case _ => None
  }

  function First<T>(s: seq<T>): (r: Option<T>)
    ensures r.None? <==> |s| == 0
    ensures r.Some? ==> r.value == s[0]
  {
    if |s| == 0 then None else Some(s[0])
  }

  /** `shouldShowOnboarding`. */
  function ShouldShowOnboarding(settings: Option<AppSettings>): (b: bool)
    ensures b <==> settings.None? || !settings.value.hasCompletedOnboarding
  {
    match settings
    case None => true
    case Some(s) => !s.hasCompletedOnboarding
  }

  datatype Route = Loading | OnboardingFlow | MainTabs

  /** What the current root shows. */
  function RouteOf(settingsList: seq<AppSettings>): (r: Route)
    ensures r == Loading <==> |settingsList| == 0
    ensures r == OnboardingFlow <==> |settingsList| > 0 && !settingsList[0].hasCompletedOnboarding
    ensures r == MainTabs <==> |settingsList| > 0 && settingsList[0].hasCompletedOnboarding
  {
    if |settingsList| == 0 then Loading
    else if ShouldShowOnboarding(First(settingsList)) then OnboardingFlow
    else MainTabs
  }

  /** The stored records of the two kinds the root creates. */
  datatype Store = Store(settings: seq<AppSettings>, stats: seq<UserStats>)

  /** `ensureBootstrapData`: a default record of each kind, only where there is none. */
  function Bootstrap(st: Store): (r: Store)
    ensures |st.settings| == 0 ==> r.settings == [DefaultSettings]
    ensures |st.settings| > 0 ==> r.settings == st.settings
    ensures |st.stats| == 0 ==> r.stats == [NewStats]
    ensures |st.stats| > 0 ==> r.stats == st.stats
  {
    Store(if |st.settings| == 0 then [DefaultSettings] else st.settings,
          if |st.stats| == 0 then [NewStats] else st.stats)
  }

  /** After bootstrapping there is exactly the one record of each kind a fresh install
      needs, the loading screen is gone, and bootstrapping again changes nothing. */
  lemma BootstrapSettles(st: Store)
    ensures |Bootstrap(st).settings| > 0 && |Bootstrap(st).stats| > 0
    ensures RouteOf(Bootstrap(st).settings) != Loading
    ensures Bootstrap(Bootstrap(st)) == Bootstrap(st)
    ensures st == Store([], []) ==> RouteOf(Bootstrap(st).settings) == OnboardingFlow
  {
  }

  /** Finishing onboarding on the first record takes the root to the main tabs. */
  lemma OnboardingLeadsToMain(settingsList: seq<AppSettings>, a: Answers, now: int)
    requires |settingsList| > 0
    ensures var done := CompleteOnboarding(First(settingsList), a, now).value;
      RouteOf([done] + settingsList[1..]) == MainTabs
  {
  }

  /** The earlier root always shows the main tabs, with the same scheme and bootstrap. */
  function LegacyRouteOf(settingsList: seq<AppSettings>): (r: Route)
    ensures r == MainTabs
    ensures RouteOf(settingsList) == MainTabs ==> r == RouteOf(settingsList)
  {
    MainTabs
  }
}
