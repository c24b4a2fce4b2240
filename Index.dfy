/**
 * The desktop shell (`Index` page): loading screen, then landing page,
 * then dashboard and back. The desktop shell has no chat state, and the
 * dashboard is mounted without its enter-chat callback, so the desktop chat
 * screen is never shown.
 */
module Index {

  datatype AppState = Loading | Landing | Dashboard

  /** The components of the desktop app the shell could mount. */
  datatype View = LoadingScreenView | HeroSectionView | DashboardView | EclipseChatView

  /** The views mounted for `state`: one conditional per state, in source order. */
  function RenderedViews(state: AppState): (r: seq<View>)
    ensures |r| == 1
    ensures r[0] == LoadingScreenView <==> state == Loading
    ensures r[0] == HeroSectionView <==> state == Landing
    ensures r[0] == DashboardView <==> state == Dashboard
    ensures EclipseChatView !in r
  {
    (if state == Loading then [LoadingScreenView] else [])
    + (if state == Landing then [HeroSectionView] else [])
    + (if state == Dashboard then [DashboardView] else [])
  }

  /** The page's state. */
  class Shell {
    var currentState: AppState

    constructor ()
      ensures currentState == Loading
    {
      currentState := Loading;
    }

    /** `handleLoadingComplete`, the loading screen's `onComplete`. */
    method HandleLoadingComplete()
      modifies this
      ensures currentState == Landing
    {
      currentState := Landing;
    }

    /** `handleEnterDashboard`, the landing page's `onEnterDashboard`. */
    method HandleEnterDashboard()
      modifies this
      ensures currentState == Dashboard
    {
      currentState := Dashboard;
    }

    /** `handleBackToLanding`, the dashboard's `onBackToLanding`. */
    method HandleBackToLanding()
      modifies this
      ensures currentState == Landing
    {
      currentState := Landing;
    }

    /** The dashboard's enter-chat button: no handler was passed, so a click does nothing. */
    method DashboardEnterChat()
      ensures unchanged(this)
    {
    }
  }
}
