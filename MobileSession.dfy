/**
 * The mobile screens wired together as the shell wires them: the
 * onboarding stepper's completion is the shell's `completeOnboarding`, and
 * every screen's navigation requests go to `navigateToScreen`.
 */
module MobileSession {
  import opened MobileApp
  import MobileOnboarding
  import MobileHome
  import MobileProfile
  import MobileChat

  /** Home's quick actions reach three different screens, each of which is not home. */
  lemma QuickActionsReachOtherScreens()
    ensures |MobileHome.QuickActionTargets| == 3
    ensures forall i, j :: 0 <= i < j < 3 ==> MobileHome.QuickActionTargets[i] != MobileHome.QuickActionTargets[j]
    ensures forall i :: 0 <= i < 3 ==> MobileHome.QuickActionTargets[i] !in {Home, Onboarding}
  {
  }

  /** The chat and profile screens' back buttons return home. */
  lemma BackButtonsGoHome()
    ensures MobileChat.BackTarget == Home && MobileProfile.BackTarget == Home
  {
  }

  /**
   * First launch on storage without the flag: the app opens on onboarding,
   * the user presses Next on every page, which completes onboarding on the
   * fourth press; then opens the profile from home and comes back.
   */
  method FirstLaunchTour(storage: map<string, string>) returns (app: App, firstScreen: MobileScreen, presses: nat)
    requires !OnboardingDone(storage)
    ensures firstScreen == Onboarding
    ensures presses == MobileOnboarding.StepCount
    ensures app.currentScreen == Home && OnboardingDone(app.storage) && !app.isFirstLaunch
  {
    app := new App(storage);
    app.Startup();
    firstScreen := app.currentScreen;
    var stepper := new MobileOnboarding.Stepper();
    var completed := false;
    presses := 0;
    while !completed
      invariant stepper.Valid()
      invariant completed ==> stepper.currentStep == MobileOnboarding.StepCount - 1
      invariant presses == stepper.currentStep + (if completed then 1 else 0)
      decreases MobileOnboarding.StepCount - stepper.currentStep, !completed
    {
      completed := stepper.Next();
      presses := presses + 1;
    }
    app.CompleteOnboarding();
    app.NavigateTo(MobileHome.QuickActionTargets[2]);
    assert app.currentScreen == Profile;
    app.NavigateTo(MobileProfile.BackTarget);
  }
}
