/**
 * The mobile shell (`MobileApp`): five screens, one of them shown at a
 * time, and a single persisted flag that records that onboarding was
 * completed. Browser storage is a map from keys to strings held by the app.
 */
module MobileApp {

  datatype MobileScreen = Onboarding | Home | Dashboard | Chat | Profile

  /** The components the shell can mount. */
  datatype View = OnboardingView | HomeView | DashboardView | ChatView | ProfileView

  /** The storage key of the onboarding flag. */
  const OnboardingKey := "eclipse-onboarding-complete"

  /**
   * `localStorage.getItem(OnboardingKey)` taken as a condition: a missing
   * key reads as `null` and the empty string is falsy; any other stored
   * string counts as done.
   */
  predicate OnboardingDone(storage: map<string, string>) {
    OnboardingKey in storage && storage[OnboardingKey] != ""
  }

  /** The screen a freshly started app settles on. */
  function StartScreen(storage: map<string, string>): MobileScreen {
    if OnboardingDone(storage) then Home else Onboarding
  }

  /** The views mounted for `screen`: one conditional per screen, in source order. */
  function RenderedViews(screen: MobileScreen): (r: seq<View>)
    ensures |r| == 1
    ensures r[0] == OnboardingView <==> screen == Onboarding
    ensures r[0] == HomeView <==> screen == Home
    ensures r[0] == DashboardView <==> screen == Dashboard
    ensures r[0] == ChatView <==> screen == Chat
    ensures r[0] == ProfileView <==> screen == Profile
  {
    (if screen == Onboarding then [OnboardingView] else [])
    + (if screen == Home then [HomeView] else [])
    + (if screen == Dashboard then [DashboardView] else [])
    + (if screen == Chat then [ChatView] else [])
    + (if screen == Profile then [ProfileView] else [])
  }

  /** Different screens mount different views. */
  lemma RenderingDistinguishesScreens(a: MobileScreen, b: MobileScreen)
    ensures RenderedViews(a) == RenderedViews(b) ==> a == b
  {
  }

  /** Completing onboarding is remembered by the next start. */
  lemma CompletionRemembered(storage: map<string, string>)
    ensures StartScreen(storage[OnboardingKey := "true"]) == Home
  {
  }

  /** The shell's state. */
  class App {
    var currentScreen: MobileScreen
    var isFirstLaunch: bool
    var storage: map<string, string>

    /** First render: the onboarding screen, before storage is looked at. */
    constructor (storage: map<string, string>)
      ensures currentScreen == Onboarding && isFirstLaunch && this.storage == storage
    {
      currentScreen := Onboarding;
      isFirstLaunch := true;
      this.storage := storage;
    }

    /** The mount effect: a stored flag moves the app to the home screen. */
    method Startup()
      modifies this
      ensures storage == old(storage)
      ensures OnboardingDone(storage) ==> currentScreen == Home && !isFirstLaunch
      ensures !OnboardingDone(storage) ==>
        currentScreen == old(currentScreen) && isFirstLaunch == old(isFirstLaunch)
    {
      if OnboardingKey in storage && storage[OnboardingKey] != "" {
        currentScreen := Home;
        isFirstLaunch := false;
      }
    }

    /** `navigateToScreen`: any screen, from any screen. */
    method NavigateTo(screen: MobileScreen)
      modifies this
      ensures currentScreen == screen
      ensures isFirstLaunch == old(isFirstLaunch) && storage == old(storage)
    {
      currentScreen := screen;
    }

    /** `completeOnboarding`: store the flag, then show the home screen. */
    method CompleteOnboarding()
      modifies this
      ensures storage == old(storage)[OnboardingKey := "true"]
      ensures OnboardingDone(storage)
      ensures !isFirstLaunch && currentScreen == Home
    {
      storage := storage[OnboardingKey := "true"];
      isFirstLaunch := false;
      currentScreen := Home;
    }
  }

  /** Starting the app with and without the stored flag. */
  method Launch(storage: map<string, string>) returns (screen: MobileScreen)
    ensures screen == StartScreen(storage)
    ensures screen == Home <==> OnboardingDone(storage)
  {
    var app := new App(storage);
    app.Startup();
    screen := app.currentScreen;
  }

  /** Complete onboarding, then start a new app on the same storage: it opens at home. */
  method RelaunchAfterOnboarding(storage: map<string, string>) returns (screen: MobileScreen)
    ensures screen == Home
  {
    var app := new App(storage);
    app.Startup();
    app.CompleteOnboarding();
    screen := Launch(app.storage);
  }
}
